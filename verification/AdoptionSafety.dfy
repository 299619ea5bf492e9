/** An interrupted adoption is finished by running it again, and is safe wherever it stopped. */
module AdoptionSafety {
  import opened Base
  import opened Membership
  import opened Adoption
  import opened AdoptionApply

  // ---- The order of the steps ----

  /** What a step relies on: without it the step would be unsafe, or would not stay done. */
  ghost predicate Guarded(job: Job, st: Step, s: Store) {
    match st
    case AdoptPod(_) => s.legacy.statefulSet == Away
    case PointService => MembersExist(job, s)
    case DeleteLegacy =>
      MembersExist(job, s) && (job.headless in s.services ==> s.services[job.headless].owners == MemberRefs(job.members))
    case CreateHeadless => job.cluster in s.services ==> s.services[job.cluster].headless
    case _ => true
  }

  ghost predicate MembersExist(job: Job, s: Store) {
    forall i :: 0 <= i < |job.members| ==> job.members[i].name in s.api.members
  }

  predicate MembersCreated(job: Job, before: seq<Step>) {
    forall i :: 0 <= i < |job.members| ==> CreateMember(job.members[i]) in before
  }

  /** The steps that provide it. */
  predicate Provided(job: Job, st: Step, before: seq<Step>) {
    match st
    case AdoptPod(_) => AwaitStatefulSet in before
    case PointService => MembersCreated(job, before)
    case DeleteLegacy => MembersCreated(job, before) && PointService in before
    case CreateHeadless => RemoveClientService in before
    case _ => true
  }

  ghost predicate Ordered(job: Job, steps: seq<Step>) {
    forall i :: 0 <= i < |steps| ==> Provided(job, steps[i], steps[..i])
  }

  ghost predicate AllDone(job: Job, steps: seq<Step>, s: Store) {
    forall i :: 0 <= i < |steps| ==> Done(job, steps[i], s)
  }

  lemma DoneMember(job: Job, steps: seq<Step>, s: Store, st: Step)
    requires AllDone(job, steps, s) && st in steps
    ensures Done(job, st, s)
  {
  }

  lemma ProvidedGuards(job: Job, st: Step, before: seq<Step>, s: Store)
    requires AllDone(job, before, s) && Provided(job, st, before)
    ensures Guarded(job, st, s)
  {
    if MembersCreated(job, before) {
      forall i | 0 <= i < |job.members| ensures job.members[i].name in s.api.members {
        DoneMember(job, before, s, CreateMember(job.members[i]));
      }
    }
    if AwaitStatefulSet in before { DoneMember(job, before, s, AwaitStatefulSet); }
    if PointService in before { DoneMember(job, before, s, PointService); }
    if RemoveClientService in before { DoneMember(job, before, s, RemoveClientService); }
  }

  /** A step that relies on nothing. */
  predicate Free(st: Step) {
    !(st.AdoptPod? || st.PointService? || st.DeleteLegacy? || st.CreateHeadless?)
  }

  lemma OrderedAppend(job: Job, a: seq<Step>, b: seq<Step>)
    requires Ordered(job, a)
    requires forall i :: 0 <= i < |b| ==> Provided(job, b[i], a + b[..i])
    ensures Ordered(job, a + b)
  {
    var c := a + b;
    forall i | 0 <= i < |c| ensures Provided(job, c[i], c[..i]) {
      if i < |a| {
        assert c[..i] == a[..i];
      } else {
        assert c[..i] == a + b[..i - |a|];
        assert b[i - |a|] == c[i];
      }
    }
  }

  lemma {:induction false} MemberStepsFree(ms: seq<AdoptedMember>)
    ensures forall i :: 0 <= i < |MemberSteps(ms)| ==> Free(MemberSteps(ms)[i])
    ensures forall i :: 0 <= i < |ms| ==> CreateMember(ms[i]) in MemberSteps(ms)
  {
    if ms != [] {
      var n := |ms| - 1;
      MemberStepsFree(ms[..n]);
      assert MemberSteps(ms)[|MemberSteps(ms)| - 2] == CreateMember(ms[n]);
      forall i | 0 <= i < n ensures CreateMember(ms[i]) in MemberSteps(ms) {
        assert CreateMember(ms[..n][i]) in MemberSteps(ms[..n]);
      }
    }
  }

  lemma {:induction false} AdoptStepsOnly(ms: seq<AdoptedMember>)
    ensures forall i :: 0 <= i < |AdoptSteps(ms)| ==> AdoptSteps(ms)[i].AdoptPod? || AdoptSteps(ms)[i].AdoptPVC?
  {
    if ms != [] {
      AdoptStepsOnly(ms[..|ms| - 1]);
    }
  }

  lemma CreationOrdered(job: Job)
    ensures var front := ExtraSteps(job.extras) + [CreateCluster, FillCluster] + MemberSteps(job.members);
            Ordered(job, front) && MembersCreated(job, front)
  {
    MemberStepsFree(job.members);
    var front := ExtraSteps(job.extras) + [CreateCluster, FillCluster] + MemberSteps(job.members);
    assert forall i :: 0 <= i < |front| ==> Free(front[i]);
    forall i | 0 <= i < |job.members| ensures CreateMember(job.members[i]) in front {
      assert CreateMember(job.members[i]) in MemberSteps(job.members);
    }
  }

  lemma BeforePodsOrdered(job: Job)
    ensures Ordered(job, BeforePods(job)) && AwaitStatefulSet in BeforePods(job)
  {
    var a := ExtraSteps(job.extras) + [CreateCluster, FillCluster] + MemberSteps(job.members);
    CreationOrdered(job);
    OrderedAppend(job, a, [PointService]);
    var b := a + [PointService];
    var c := if job.deleteLegacy then [DeleteLegacy] else [];
    assert b[|a|] == PointService;
    assert MembersCreated(job, b);
    assert b + c[..0] == b;
    OrderedAppend(job, b, c);
    var tail := [DeleteStatefulSet, AwaitStatefulSet, DeleteConfigMap, DeletePDB];
    OrderedAppend(job, b + c, tail);
    assert BeforePods(job) == b + c + tail;
    assert (b + c + tail)[|b + c| + 1] == AwaitStatefulSet;
  }

  /** The steps come in an order in which each finds what it relies on. */
  lemma StepsOrdered(job: Job)
    ensures Ordered(job, Steps(job))
  {
    var a, b := BeforePods(job), AdoptSteps(job.members);
    BeforePodsOrdered(job);
    AdoptStepsOnly(job.members);
    assert forall i :: 0 <= i < |b| ==> AwaitStatefulSet in a + b[..i];
    OrderedAppend(job, a, b);
    var c := [RemoveClientService, CreateHeadless];
    assert (a + b + c[..1])[|a + b|] == RemoveClientService;
    OrderedAppend(job, a + b, c);
  }

  // ---- Doing a step makes it done; no step undoes another ----

  lemma AdoptedTwice(o: Object, labels: map<string, string>, n: Name)
    ensures Adopted(Adopted(o, labels, n), labels, n) == Adopted(o, labels, n)
  {
    ReplaceRefTwice(o.owners, Ref(NewMember, n, true));
    assert (o.labels + labels) + labels == o.labels + labels;
  }

  lemma PvcNameInjective(a: string, b: string)
    requires PvcName(a) == PvcName(b)
    ensures a == b
  {
    assert PvcName(a)[5..] == a && PvcName(b)[5..] == b;
  }

  lemma AdoptInTwice(os: map<string, Object>, key: string, labels: map<string, string>, n: Name)
    requires key in os
    ensures var once := AdoptIn(os, key, labels, n); AdoptIn(once.value, key, labels, n) == once
  {
    AdoptedTwice(os[key], labels, n);
    var o := Adopted(os[key], labels, n);
    assert os[key := o][key := o] == os[key := o];
  }

  /** Adopting one object leaves an adopted other one adopted. */
  lemma AdoptInKept(os: map<string, Object>, key: string, labels: map<string, string>, n: Name, other: string, o: Object)
    requires AdoptIn(os, key, labels, n) == Some(os) && other != key
    ensures AdoptIn(os[other := o], key, labels, n) == Some(os[other := o])
  {
    var out := os[other := o];
    assert Adopted(os[key], labels, n) == os[key := Adopted(os[key], labels, n)][key] == os[key];
    assert out[key := out[key]] == out;
  }

  lemma DataDone(job: Job, st: Step, d: Data)
    ensures ExecData(job, st, d).Some? ==> ExecData(job, st, ExecData(job, st, d).value) == ExecData(job, st, d)
  {
    match st
    case AdoptPod(n) =>
      if n in d.pods {
        AdoptInTwice(d.pods, n, MemberLabels(job.cluster, n) + VoterLabel, n);
      }
    case AdoptPVC(n) =>
      if PvcName(n) in d.pvcs {
        AdoptInTwice(d.pvcs, PvcName(n), MemberLabels(job.cluster, n), n);
      }
    case _ =>
  }

  lemma ServicesDone(job: Job, st: Step, ss: map<string, Service>)
    ensures ExecServices(job, st, ExecServices(job, st, ss)) == ExecServices(job, st, ss)
  {
  }

  lemma ApiDone(job: Job, st: Step, a: NewApi)
    ensures ExecApi(job, st, a).Some? ==> ExecApi(job, st, ExecApi(job, st, a).value) == ExecApi(job, st, a)
  {
  }

  lemma ExecDone(job: Job, st: Step, s: Store)
    requires Exec(job, st, s).Some? && Guarded(job, st, s)
    ensures Done(job, st, Exec(job, st, s).value)
  {
    ApiDone(job, st, s.api);
    ServicesDone(job, st, s.services);
    DataDone(job, st, s.data);
  }

  lemma DataKept(job: Job, st: Step, other: Step, d: Data)
    requires ExecData(job, st, d) == Some(d) && ExecData(job, other, d).Some?
    ensures ExecData(job, st, ExecData(job, other, d).value) == ExecData(job, other, d)
  {
    if st == other {
      DataDone(job, st, d);
    } else if st.AdoptPod? && other.AdoptPod? {
      var labels := MemberLabels(job.cluster, st.name) + VoterLabel;
      var m := other.name;
      var o := Adopted(d.pods[m], MemberLabels(job.cluster, m) + VoterLabel, m);
      AdoptInKept(d.pods, st.name, labels, st.name, m, o);
    } else if st.AdoptPVC? && other.AdoptPVC? {
      var m := other.name;
      if PvcName(m) == PvcName(st.name) {
        PvcNameInjective(m, st.name);
      }
      var o := Adopted(d.pvcs[PvcName(m)], MemberLabels(job.cluster, m), m);
      AdoptInKept(d.pvcs, PvcName(st.name), MemberLabels(job.cluster, st.name), st.name, PvcName(m), o);
    }
  }

  lemma ApiKept(job: Job, st: Step, other: Step, a: NewApi)
    requires ExecApi(job, st, a) == Some(a) && ExecApi(job, other, a).Some?
    requires st.CreateCluster? ==> a.cluster.Some?
    requires st.CreateMember? ==> st.member.name in a.members
    ensures ExecApi(job, st, ExecApi(job, other, a).value) == ExecApi(job, other, a)
  {
    if st.CreateExtra? {
      var b := ExecApi(job, other, a).value;
      assert st.extra in a.extras + {st.extra};
      assert b.extras + {st.extra} == b.extras;
    }
  }

  lemma ServicesKept(job: Job, st: Step, other: Step, s: Store)
    requires Separate(job, s) && ExecServices(job, st, s.services) == s.services && DoneMore(job, st, s)
    ensures var ss := ExecServices(job, other, s.services);
            && ExecServices(job, st, ss) == ss
            && DoneMore(job, st, s.(services := ss)) && Separate(job, s.(services := ss))
  {
    var ss, h := ExecServices(job, other, s.services), job.headless;
    if st.PointService? && h in ss {
      assert ss[h].owners == MemberRefs(job.members);
      assert ss[h := ss[h]] == ss;
    }
  }

  /** No step undoes another. */
  lemma DoneKept(job: Job, st: Step, other: Step, s: Store)
    requires Separate(job, s) && Done(job, st, s) && Exec(job, other, s).Some?
    ensures Done(job, st, Exec(job, other, s).value)
  {
    ApiKept(job, st, other, s.api);
    ServicesKept(job, st, other, s);
    DataKept(job, st, other, s.data);
  }

  lemma SeparateKept(job: Job, st: Step, s: Store)
    requires Separate(job, s) && Exec(job, st, s).Some?
    ensures Separate(job, Exec(job, st, s).value)
  {
  }

  // ---- Re-running ----

  lemma AllDoneKept(job: Job, done: seq<Step>, st: Step, s: Store)
    requires Separate(job, s) && AllDone(job, done, s) && Exec(job, st, s).Some? && Guarded(job, st, s)
    ensures AllDone(job, done + [st], Exec(job, st, s).value)
  {
    var t := Exec(job, st, s).value;
    forall i | 0 <= i < |done| ensures Done(job, done[i], t) {
      DoneKept(job, done[i], st, s);
    }
    ExecDone(job, st, s);
  }

  lemma {:induction false} SkipsDone(job: Job, done: seq<Step>, rest: seq<Step>, s: Store)
    requires AllDone(job, done, s)
    ensures Runs(job, done + rest, s) == Runs(job, rest, s)
  {
    if done == [] {
      assert done + rest == rest;
    } else {
      assert (done + rest)[0] == done[0] && (done + rest)[1..] == done[1..] + rest;
      assert Done(job, done[0], s);
      SkipsDone(job, done[1..], rest, s);
    }
  }

  lemma NextGuarded(job: Job, done: seq<Step>, rest: seq<Step>, s: Store)
    requires AllDone(job, done, s) && Ordered(job, done + rest) && rest != []
    ensures Guarded(job, rest[0], s)
  {
    var steps := done + rest;
    assert steps[|done|] == rest[0] && steps[..|done|] == done;
    ProvidedGuards(job, rest[0], done, s);
  }

  /** With `done` behind it, an attempt cut k steps into `rest` is completed by starting over. */
  lemma {:induction false} StartOver(job: Job, done: seq<Step>, rest: seq<Step>, k: nat, s: Store)
    requires Separate(job, s) && AllDone(job, done, s) && k <= |rest| && Ordered(job, done + rest)
    ensures Runs(job, done + rest, Runs(job, rest[..k], s)) == Runs(job, rest, s)
    decreases |rest|
  {
    if k == 0 || Exec(job, rest[0], s).None? {
      SkipsDone(job, done, rest, s);
    } else {
      var t := Exec(job, rest[0], s).value;
      NextGuarded(job, done, rest, s);
      AllDoneKept(job, done, rest[0], s);
      SeparateKept(job, rest[0], s);
      assert done + [rest[0]] + rest[1..] == done + rest;
      StartOver(job, done + [rest[0]], rest[1..], k - 1, t);
      assert rest[..k][1..] == rest[1..][..k - 1];
    }
  }

  lemma {:induction false} RunsSeparate(job: Job, steps: seq<Step>, s: Store)
    requires Separate(job, s)
    ensures Separate(job, Runs(job, steps, s))
  {
    if steps != [] && Exec(job, steps[0], s).Some? {
      SeparateKept(job, steps[0], s);
      RunsSeparate(job, steps[1..], Exec(job, steps[0], s).value);
    }
  }

  /** However many attempts were cut, and wherever, one more ends in the state an uninterrupted one reaches. */
  lemma {:induction false} RerunCompletes(job: Job, cuts: seq<nat>, s: Store)
    requires Separate(job, s)
    ensures Runs(job, Steps(job), Attempts(job, cuts, s)) == Runs(job, Steps(job), s)
  {
    if cuts != [] {
      var steps := Steps(job);
      var k := if cuts[0] <= |steps| then cuts[0] else |steps|;
      assert [] + steps == steps;
      StepsOrdered(job);
      StartOver(job, [], steps, k, s);
      RunsSeparate(job, steps[..k], s);
      RerunCompletes(job, cuts[1..], Runs(job, steps[..k], s));
    }
  }

  // ---- Safety wherever an attempt stops ----

  /** A Pod that an EtcdMember controls or co-owns. */
  predicate MemberOwned(o: Object) {
    exists i :: 0 <= i < |o.owners| && o.owners[i].kind == NewMember
  }

  predicate Alive(r: Ref, s: Store) {
    match r.kind
    case LegacyCluster => s.legacy.cluster
    case StatefulSet => s.legacy.statefulSet != Away
    case NewCluster => s.api.cluster.Some?
    case NewMember => r.name in s.api.members
    case OtherKind(_) => true
  }

  /** What the garbage collector reaps: an object with owners, all of which are gone. */
  predicate Garbage(owners: seq<Ref>, s: Store) {
    owners != [] && forall i :: 0 <= i < |owners| ==> !Alive(owners[i], s)
  }

  /** No Pod belongs to an EtcdMember while the StatefulSet exists. */
  ghost predicate PodsSafe(s: Store) {
    s.legacy.statefulSet != Away ==> forall p :: p in s.data.pods ==> !MemberOwned(s.data.pods[p])
  }

  /** The members own the headless Service before the legacy cluster goes, and it is never garbage. */
  ghost predicate Safe(job: Job, s: Store) {
    && (!s.legacy.cluster ==> job.headless in s.services ==> s.services[job.headless].owners == MemberRefs(job.members))
    && (job.headless in s.services ==>
          !Garbage(s.services[job.headless].owners, s) && NoStatefulSetOwner(s.services[job.headless].owners))
  }

  predicate NoStatefulSetOwner(owners: seq<Ref>) {
    forall i :: 0 <= i < |owners| ==> owners[i].kind != StatefulSet
  }

  lemma RefsAlive(job: Job, s: Store)
    requires MembersExist(job, s)
    ensures !Garbage(MemberRefs(job.members), s)
  {
    if MemberRefs(job.members) != [] {
      assert Alive(MemberRefs(job.members)[0], s);
    }
  }

  lemma GuardedSafe(job: Job, st: Step, s: Store)
    requires Separate(job, s) && Safe(job, s) && Guarded(job, st, s) && Exec(job, st, s).Some?
    ensures Safe(job, Exec(job, st, s).value)
  {
    var t := Exec(job, st, s).value;
    if st.PointService? || st.DeleteLegacy? {
      RefsAlive(job, t);
    }
  }

  lemma {:induction false} SafeRun(job: Job, done: seq<Step>, rest: seq<Step>, k: nat, s: Store)
    requires Separate(job, s) && Safe(job, s) && AllDone(job, done, s) && k <= |rest| && Ordered(job, done + rest)
    ensures Safe(job, Runs(job, rest[..k], s))
    decreases k
  {
    if k > 0 && Exec(job, rest[0], s).Some? {
      NextGuarded(job, done, rest, s);
      GuardedSafe(job, rest[0], s);
      AllDoneKept(job, done, rest[0], s);
      SeparateKept(job, rest[0], s);
      assert done + [rest[0]] + rest[1..] == done + rest;
      SafeRun(job, done + [rest[0]], rest[1..], k - 1, Exec(job, rest[0], s).value);
      assert rest[..k][1..] == rest[1..][..k - 1];
    }
  }

  /**
   * Wherever any number of attempts stop: the legacy cluster is gone only once the members
   * own the headless Service (or there is none), and that Service is never up for garbage
   * collection.
   */
  lemma {:induction false} ServiceSafeThroughout(job: Job, cuts: seq<nat>, s: Store)
    requires Separate(job, s) && Safe(job, s)
    ensures Safe(job, Attempts(job, cuts, s))
  {
    if cuts != [] {
      var steps := Steps(job);
      var k := if cuts[0] <= |steps| then cuts[0] else |steps|;
      StepsOrdered(job);
      assert [] + steps == steps;
      SafeRun(job, [], steps, k, s);
      RunsSeparate(job, steps[..k], s);
      ServiceSafeThroughout(job, cuts[1..], Runs(job, steps[..k], s));
    }
  }

  lemma PodsStep(job: Job, st: Step, s: Store)
    requires PodsSafe(s) && Exec(job, st, s).Some? && (st.AdoptPod? ==> s.legacy.statefulSet == Away)
    ensures var t := Exec(job, st, s).value;
            PodsSafe(t) && (s.legacy.statefulSet == Away || st == AwaitStatefulSet ==> t.legacy.statefulSet == Away)
  {
  }

  lemma {:induction false} PodsRun(job: Job, done: seq<Step>, rest: seq<Step>, k: nat, s: Store)
    requires PodsSafe(s) && (AwaitStatefulSet in done ==> s.legacy.statefulSet == Away)
    requires k <= |rest| && Ordered(job, done + rest)
    ensures PodsSafe(Runs(job, rest[..k], s))
    decreases k
  {
    if k > 0 && Exec(job, rest[0], s).Some? {
      var steps := done + rest;
      assert steps[|done|] == rest[0] && steps[..|done|] == done;
      assert Provided(job, rest[0], done);
      PodsStep(job, rest[0], s);
      assert done + [rest[0]] + rest[1..] == done + rest;
      PodsRun(job, done + [rest[0]], rest[1..], k - 1, Exec(job, rest[0], s).value);
      assert rest[..k][1..] == rest[1..][..k - 1];
    }
  }

  /** For every job: wherever attempts stop, no Pod belongs to an EtcdMember while the StatefulSet exists. */
  lemma {:induction false} PodsSafeThroughout(job: Job, cuts: seq<nat>, s: Store)
    requires PodsSafe(s)
    ensures PodsSafe(Attempts(job, cuts, s))
  {
    if cuts != [] {
      var steps := Steps(job);
      var k := if cuts[0] <= |steps| then cuts[0] else |steps|;
      StepsOrdered(job);
      assert [] + steps == steps;
      PodsRun(job, [], steps, k, s);
      PodsSafeThroughout(job, cuts[1..], Runs(job, steps[..k], s));
    }
  }

  /** A legacy cluster nobody has started to adopt is safe. */
  lemma LegacyIsSafe(job: Job, s: Store)
    requires s.legacy.cluster && forall p :: p in s.data.pods ==> !MemberOwned(s.data.pods[p])
    requires job.headless in s.services ==> s.services[job.headless].owners == [Ref(LegacyCluster, job.cluster, true)]
    ensures PodsSafe(s) && Safe(job, s)
  {
    if job.headless in s.services {
      assert Alive(s.services[job.headless].owners[0], s);
    }
  }

  // ---- The completed adoption ----

  predicate Succeeds(job: Job, steps: seq<Step>, s: Store) {
    steps == [] || (Exec(job, steps[0], s).Some? && Succeeds(job, steps[1..], Exec(job, steps[0], s).value))
  }

  lemma {:induction false} SucceededDone(job: Job, done: seq<Step>, rest: seq<Step>, s: Store)
    requires Separate(job, s) && AllDone(job, done, s) && Ordered(job, done + rest) && Succeeds(job, rest, s)
    ensures AllDone(job, done + rest, Runs(job, rest, s))
    decreases |rest|
  {
    if rest == [] {
      assert done + rest == done;
    } else {
      NextGuarded(job, done, rest, s);
      AllDoneKept(job, done, rest[0], s);
      SeparateKept(job, rest[0], s);
      assert done + [rest[0]] + rest[1..] == done + rest;
      SucceededDone(job, done + [rest[0]], rest[1..], Exec(job, rest[0], s).value);
    }
  }

  /** Member m runs under the new API: its record is filled in and it alone controls its Pod and volume. */
  ghost predicate MemberAdopted(s: Store, n: Name) {
    && n in s.api.members && s.api.members[n].status.Some?
    && n in s.data.pods && SoleController(s.data.pods[n].owners, n)
    && PvcName(n) in s.data.pvcs && SoleController(s.data.pvcs[PvcName(n)].owners, n)
  }

  ghost predicate SoleController(owners: seq<Ref>, n: Name) {
    forall o :: o in owners && o.controller <==> o == Ref(NewMember, n, true)
  }

  lemma {:induction false} StepOf(ms: seq<AdoptedMember>, i: nat)
    requires i < |ms|
    ensures FillMember(ms[i].name, ms[i].status) in MemberSteps(ms)
    ensures AdoptPod(ms[i].name) in AdoptSteps(ms) && AdoptPVC(ms[i].name) in AdoptSteps(ms)
  {
    var n := |ms| - 1;
    if i < n {
      StepOf(ms[..n], i);
    } else {
      assert MemberSteps(ms)[|MemberSteps(ms)| - 1] == FillMember(ms[n].name, ms[n].status);
      assert AdoptSteps(ms)[|AdoptSteps(ms)| - 2] == AdoptPod(ms[n].name);
      assert AdoptSteps(ms)[|AdoptSteps(ms)| - 1] == AdoptPVC(ms[n].name);
    }
  }

  lemma AdoptedIsSole(os: map<string, Object>, key: string, labels: map<string, string>, n: Name)
    requires AdoptIn(os, key, labels, n) == Some(os)
    ensures key in os && SoleController(os[key].owners, n)
  {
    var o := os[key];
    assert os[key := Adopted(o, labels, n)][key] == o;
    forall r ensures r in o.owners && r.controller <==> r == Ref(NewMember, n, true) {
      ReplaceRefOwners(o.owners, Ref(NewMember, n, true), r);
    }
  }

  lemma MemberStepIn(job: Job, i: nat)
    requires i < |job.members|
    ensures FillMember(job.members[i].name, job.members[i].status) in Steps(job)
    ensures AdoptPod(job.members[i].name) in Steps(job) && AdoptPVC(job.members[i].name) in Steps(job)
  {
    StepOf(job.members, i);
  }

  lemma AdoptedWhenDone(job: Job, s: Store, i: nat)
    requires AllDone(job, Steps(job), s) && i < |job.members|
    ensures MemberAdopted(s, job.members[i].name)
  {
    var n := job.members[i].name;
    var fill := FillMember(n, job.members[i].status);
    MemberStepIn(job, i);
    DoneMember(job, Steps(job), s, fill);
    DoneMember(job, Steps(job), s, AdoptPod(n));
    DoneMember(job, Steps(job), s, AdoptPVC(n));
    AdoptedIsSole(s.data.pods, n, MemberLabels(job.cluster, n) + VoterLabel, n);
    AdoptedIsSole(s.data.pvcs, PvcName(n), MemberLabels(job.cluster, n), n);
  }

  lemma StepsHold(job: Job)
    ensures FillCluster in Steps(job) && AwaitStatefulSet in Steps(job) && CreateHeadless in Steps(job)
    ensures job.deleteLegacy ==> DeleteLegacy in Steps(job)
  {
    var a := ExtraSteps(job.extras) + [CreateCluster, FillCluster];
    assert a[|a| - 1] == FillCluster;
    BeforePodsOrdered(job);
    var all := Steps(job);
    assert all[|all| - 1] == CreateHeadless;
    assert FillCluster in BeforePods(job);
    if job.deleteLegacy {
      assert DeleteLegacy in [DeleteLegacy];
      assert DeleteLegacy in BeforePods(job);
    }
  }

  /** The legacy control plane is gone and the native one is in place. */
  ghost predicate ControlPlaneMoved(job: Job, t: Store) {
    && t.legacy.statefulSet == Away && (job.deleteLegacy ==> !t.legacy.cluster)
    && t.api.cluster.Some? && (job.status.clusterID.Some? ==> t.api.cluster.value.status.clusterID.Some?)
    && job.cluster in t.services && t.services[job.cluster].headless
  }

  lemma MovedWhenDone(job: Job, t: Store)
    requires AllDone(job, Steps(job), t)
    ensures ControlPlaneMoved(job, t)
  {
    var steps := Steps(job);
    StepsHold(job);
    DoneMember(job, steps, t, AwaitStatefulSet);
    DoneMember(job, steps, t, FillCluster);
    DoneMember(job, steps, t, CreateHeadless);
    if job.deleteLegacy {
      DoneMember(job, steps, t, DeleteLegacy);
    }
  }

  /** A completed adoption leaves every member adopted, the legacy control plane gone and the native Service in place. */
  lemma AdoptionCompletes(job: Job, s: Store)
    requires Separate(job, s) && Succeeds(job, Steps(job), s)
    ensures forall i :: 0 <= i < |job.members| ==> MemberAdopted(Runs(job, Steps(job), s), job.members[i].name)
    ensures ControlPlaneMoved(job, Runs(job, Steps(job), s))
  {
    var steps, t := Steps(job), Runs(job, Steps(job), s);
    StepsOrdered(job);
    assert [] + steps == steps;
    SucceededDone(job, [], steps, s);
    forall i | 0 <= i < |job.members| ensures MemberAdopted(t, job.members[i].name) {
      AdoptedWhenDone(job, t, i);
    }
    MovedWhenDone(job, t);
  }

  // ---- The proviso is exact ----

  function FoldServices(job: Job, steps: seq<Step>, ss: map<string, Service>): map<string, Service> {
    if steps == [] then ss else FoldServices(job, steps[1..], ExecServices(job, steps[0], ss))
  }

  lemma {:induction false} RunsServices(job: Job, steps: seq<Step>, s: Store)
    requires Succeeds(job, steps, s)
    ensures Runs(job, steps, s).services == FoldServices(job, steps, s.services)
  {
    if steps != [] {
      RunsServices(job, steps[1..], Exec(job, steps[0], s).value);
    }
  }

  lemma {:induction false} FoldConcat(job: Job, a: seq<Step>, b: seq<Step>, ss: map<string, Service>)
    ensures FoldServices(job, a + b, ss) == FoldServices(job, b, FoldServices(job, a, ss))
  {
    if a == [] {
      assert a + b == b;
    } else {
      assert (a + b)[0] == a[0] && (a + b)[1..] == a[1..] + b;
      FoldConcat(job, a[1..], b, ExecServices(job, a[0], ss));
    }
  }

  predicate TouchesServices(st: Step) {
    st.PointService? || st.RemoveClientService? || st.CreateHeadless?
  }

  lemma {:induction false} FoldIdle(job: Job, a: seq<Step>, ss: map<string, Service>)
    requires forall i :: 0 <= i < |a| ==> !TouchesServices(a[i])
    ensures FoldServices(job, a, ss) == ss
  {
    if a != [] {
      FoldIdle(job, a[1..], ss);
    }
  }

  function Creation(job: Job): seq<Step> {
    ExtraSteps(job.extras) + [CreateCluster, FillCluster] + MemberSteps(job.members)
  }

  function Dismantling(job: Job): seq<Step> {
    (if job.deleteLegacy then [DeleteLegacy] else [])
    + [DeleteStatefulSet, AwaitStatefulSet, DeleteConfigMap, DeletePDB] + AdoptSteps(job.members)
  }

  lemma StepsShape(job: Job)
    ensures Steps(job) == Creation(job) + ([PointService] + (Dismantling(job) + [RemoveClientService, CreateHeadless]))
    ensures forall i :: 0 <= i < |Creation(job)| ==> !TouchesServices(Creation(job)[i])
    ensures forall i :: 0 <= i < |Dismantling(job)| ==> !TouchesServices(Dismantling(job)[i])
  {
    MemberStepsQuiet(job.members);
    AdoptStepsOnly(job.members);
  }

  lemma FoldFirst(job: Job, st: Step, rest: seq<Step>, ss: map<string, Service>)
    ensures FoldServices(job, [st] + rest, ss) == FoldServices(job, rest, ExecServices(job, st, ss))
  {
    assert ([st] + rest)[1..] == rest;
  }

  lemma FoldSteps(job: Job, ss: map<string, Service>)
    ensures FoldServices(job, Steps(job), ss) ==
            ExecServices(job, CreateHeadless, ExecServices(job, RemoveClientService, ExecServices(job, PointService, ss)))
  {
    var a, b, e := Creation(job), Dismantling(job), [RemoveClientService, CreateHeadless];
    StepsShape(job);
    FoldConcat(job, a, [PointService] + (b + e), ss);
    FoldIdle(job, a, ss);
    FoldFirst(job, PointService, b + e, ss);
    var pointed := ExecServices(job, PointService, ss);
    FoldConcat(job, b, e, pointed);
    FoldIdle(job, b, pointed);
    FoldEnd(job, pointed);
  }

  lemma FoldEnd(job: Job, ss: map<string, Service>)
    ensures FoldServices(job, [RemoveClientService, CreateHeadless], ss) ==
            ExecServices(job, CreateHeadless, ExecServices(job, RemoveClientService, ss))
  {
    assert [RemoveClientService, CreateHeadless] == [RemoveClientService] + ([CreateHeadless] + []);
    FoldFirst(job, RemoveClientService, [CreateHeadless] + [], ss);
    FoldFirst(job, CreateHeadless, [], ExecServices(job, RemoveClientService, ss));
  }

  lemma {:induction false} MemberStepsQuiet(ms: seq<AdoptedMember>)
    ensures forall i :: 0 <= i < |MemberSteps(ms)| ==> !TouchesServices(MemberSteps(ms)[i])
  {
    if ms != [] {
      MemberStepsQuiet(ms[..|ms| - 1]);
    }
  }

  /**
   * When the legacy headless Service bears the cluster's own name and nothing headless holds
   * it, the cut-over gives that Service to the cluster, and a second complete run hands it to
   * the members instead: re-running then does not end where the first run did.
   */
  lemma SharedNameDiffers(job: Job, s: Store)
    requires !Separate(job, s)
    requires Succeeds(job, Steps(job), s) && Succeeds(job, Steps(job), Runs(job, Steps(job), s))
    ensures var once := Runs(job, Steps(job), s); Runs(job, Steps(job), once) != once
  {
    var steps, once := Steps(job), Runs(job, Steps(job), s);
    RunsServices(job, steps, s);
    RunsServices(job, steps, once);
    FoldSteps(job, s.services);
    FoldSteps(job, once.services);
    assert once.services[job.cluster] == NativeService(job);
    var again := Runs(job, steps, once);
    assert again.services[job.cluster].owners == MemberRefs(job.members);
    assert NativeService(job).owners[0].kind == NewCluster;
    assert MemberRefs(job.members) != [] ==> MemberRefs(job.members)[0].kind == NewMember;
  }
}
