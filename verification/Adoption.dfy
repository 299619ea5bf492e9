/**
 * In-place adoption: the plan that turns a running legacy cluster into one the
 * new controllers own, and what those controllers do when it is handed over.
 */
module Adoption {
  import opened Base
  import opened Membership
  import IC = InitialCluster

  // ---- The plan ----

  /** One etcd member as the live legacy cluster reports it. */
  datatype Fact = Fact(name: string, id: Id, peerURL: string, learner: bool, podUID: string)

  datatype Facts = Facts(clusterID: Option<Id>, members: seq<Fact>)

  /** The names that legacy service templates may override; "" when they do not. */
  datatype Legacy = Legacy(name: string, namespace: string, headless: string, client: string)

  /** An EtcdMember to create, with its prefilled status. */
  datatype AdoptedMember = AdoptedMember(name: string, annotations: Annotations, bootstrap: bool,
                                         initialCluster: string, token: string, status: Prefill)
  datatype Annotations = Annotations(headless: string, dataDir: string)
  datatype Prefill = Prefill(memberID: Id, podUID: string, pvc: string, voter: bool)

  datatype Retired = Retired(statefulSet: string, configMap: string, pdb: string, headless: string, client: string)

  datatype Plan =
    | Refused
    | Adopt(spec: Spec, peerAutoTLS: bool, status: Status, members: seq<AdoptedMember>, retired: Retired)

  const LegacyDataDir: string := "default.etcd"

  function HeadlessName(l: Legacy): string { if l.headless != "" then l.headless else l.name + "-headless" }
  function ClientName(l: Legacy): string { if l.client != "" then l.client else l.name }
  function ClusterToken(l: Legacy): string { l.name + "-" + l.namespace }

  function FactName(m: Fact): string { m.name }

  ghost predicate SortedFacts(ms: seq<Fact>) {
    SortedBy(ms, FactName)
  }

  /** A member the tool cannot reason about. */
  predicate Unfit(m: Fact) { m.learner || m.podUID == "" }

  function FactParts(ms: seq<Fact>): seq<string> {
    seq(|ms|, i requires 0 <= i < |ms| => ms[i].name + "=" + ms[i].peerURL)
  }

  function AdoptedOf(l: Legacy, flag: string, m: Fact): AdoptedMember {
    AdoptedMember(m.name, Annotations(HeadlessName(l), LegacyDataDir), false, flag, ClusterToken(l),
                  Prefill(m.id, m.podUID, "data-" + m.name, true))
  }

  function AdoptedStatus(l: Legacy, spec: Spec, facts: Facts): Status {
    Status(ClusterToken(l), facts.clusterID, Some(Snapshot(spec)), None, false)
  }

  function AdoptedSpec(translated: Spec, facts: Facts): Spec {
    translated.(replicas := Some(|facts.members|))
  }

  predicate AdvertisesTLS(m: Fact) { "https://" <= m.peerURL }

  /** What the plan promises: every live member once, in name order, on etcd's own view of the cluster. */
  ghost predicate IsPlan(l: Legacy, translated: Option<Spec>, peerTLS: bool, facts: Facts, plan: Plan) {
    if translated.None? || exists m :: m in facts.members && Unfit(m) then plan == Refused
    else
      && plan.Adopt?
      && plan.spec == AdoptedSpec(translated.value, facts)
      && plan.status == AdoptedStatus(l, plan.spec, facts)
      && (plan.peerAutoTLS <==> !peerTLS && exists m :: m in facts.members && AdvertisesTLS(m))
      && plan.retired == Retired(l.name, l.name + "-cluster-state", l.name, HeadlessName(l), ClientName(l))
      && exists ms :: SortedFacts(ms) && multiset(ms) == multiset(facts.members) && MembersOf(l, ms, plan.members)
  }

  ghost predicate MembersOf(l: Legacy, ms: seq<Fact>, out: seq<AdoptedMember>) {
    |out| == |ms| && forall i :: 0 <= i < |ms| ==> out[i] == AdoptedOf(l, IC.Join(FactParts(ms)), ms[i])
  }

  method SortFacts(facts: seq<Fact>) returns (ms: seq<Fact>)
    ensures SortedFacts(ms) && multiset(ms) == multiset(facts)
  {
    ms := [];
    for i := 0 to |facts|
      invariant SortedFacts(ms) && multiset(ms) == multiset(facts[..i])
    {
      ms := InsertSorted(ms, facts[i], FactName);
      assert facts[..i + 1] == facts[..i] + [facts[i]];
    }
    assert facts[..|facts|] == facts;
  }

  method Screen(ms: seq<Fact>) returns (errors: nat, tls: bool)
    ensures errors == 0 <==> forall m :: m in ms ==> !Unfit(m)
    ensures tls <==> exists m :: m in ms && AdvertisesTLS(m)
  {
    errors, tls := 0, false;
    for i := 0 to |ms|
      invariant errors == 0 <==> forall j :: 0 <= j < i ==> !Unfit(ms[j])
      invariant tls <==> exists j :: 0 <= j < i && AdvertisesTLS(ms[j])
    {
      if ms[i].learner { errors := errors + 1; }
      if ms[i].podUID == "" { errors := errors + 1; }
      if AdvertisesTLS(ms[i]) { tls := true; }
    }
  }

  method BuildAdoption(l: Legacy, translated: Option<Spec>, peerTLS: bool, facts: Facts) returns (plan: Plan)
    ensures IsPlan(l, translated, peerTLS, facts, plan)
  {
    if translated.None? {
      return Refused;
    }
    var ms := SortFacts(facts.members);
    assert forall m :: m in ms <==> m in multiset(ms);
    assert forall m :: m in facts.members <==> m in multiset(facts.members);
    var errors, tls := Screen(ms);
    var spec := translated.value.(replicas := Some(|ms|));
    assert |ms| == |multiset(ms)| == |multiset(facts.members)| == |facts.members|;
    if errors > 0 {
      return Refused;
    }
    var flag := FlagOf(ms);
    var members := AdoptAll(l, flag, ms);
    plan := Adopt(spec, !peerTLS && tls, AdoptedStatus(l, spec, facts), members,
                  Retired(l.name, l.name + "-cluster-state", l.name, HeadlessName(l), ClientName(l)));
  }

  method FlagOf(ms: seq<Fact>) returns (flag: string)
    ensures flag == IC.Join(FactParts(ms))
  {
    var parts := [];
    for i := 0 to |ms|
      invariant parts == FactParts(ms[..i])
    {
      parts := parts + [ms[i].name + "=" + ms[i].peerURL];
    }
    assert ms[..|ms|] == ms;
    flag := IC.Join(parts);
  }

  method AdoptAll(l: Legacy, flag: string, ms: seq<Fact>) returns (members: seq<AdoptedMember>)
    ensures |members| == |ms| && forall j :: 0 <= j < |ms| ==> members[j] == AdoptedOf(l, flag, ms[j])
  {
    members := [];
    for i := 0 to |ms|
      invariant |members| == i && forall j :: 0 <= j < i ==> members[j] == AdoptedOf(l, flag, ms[j])
    {
      members := members + [AdoptedOf(l, flag, ms[i])];
    }
  }
}
