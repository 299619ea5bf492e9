/**
 * Peer URLs and the --initial-cluster flag.
 *
 * A joiner's flag is assembled from etcd's own member list.  Its value must not
 * depend on the order in which etcd lists members, must name each of them once
 * and must contain the joiner.
 */
module InitialCluster {
  import opened Base

  // ---- Peer URLs ----

  const PeerSuffix: string := ".svc:2380"

  function PeerURL(scheme: string, member: string, service: string, namespace: string): string {
    scheme + "://" + member + "." + service + "." + namespace + PeerSuffix
  }

  function TrimPrefix(s: string, p: string): string {
    if p <= s then s[|p|..] else s
  }

  /** strings.Index for a single character, with |s| for "not found". */
  function Index(s: string, c: char): (i: nat)
    ensures i <= |s| && (i < |s| ==> s[i] == c) && forall j :: 0 <= j < i ==> s[j] != c
  {
    if s == [] || s[0] == c then 0 else 1 + Index(s[1..], c)
  }

  /** strings.LastIndex for a single character, with |s| for "not found". */
  function LastIndex(s: string, c: char): (i: nat)
    ensures i <= |s|
    ensures i < |s| ==> s[i] == c && forall j :: i < j < |s| ==> s[j] != c
    ensures i == |s| ==> c !in s
  {
    if s == [] then 0
    else if s[|s| - 1] == c then |s| - 1
    else
      var i := LastIndex(s[..|s| - 1], c);
      if i == |s| - 1 then |s| else i
  }

  function MemberNameFromPeerURL(u: string): string {
    NameOfHost(HostOf(u))
  }

  /** One scheme is taken off, and then another if there is one. */
  function HostOf(u: string): string {
    TrimPrefix(TrimPrefix(u, "http://"), "https://")
  }

  function NameOfHost(s: string): string {
    var colon := LastIndex(s, ':');
    var host := if 0 < colon < |s| then s[..colon] else s;
    var dot := Index(host, '.');
    if 0 < dot < |host| then host[..dot] else ""
  }

  predicate DotFree(s: string) {
    '.' !in s
  }

  lemma {:induction false} LastIndexIs(s: string, c: char, k: nat)
    requires k < |s| && s[k] == c && forall j :: k < j < |s| ==> s[j] != c
    ensures LastIndex(s, c) == k
  {
    var i := LastIndex(s, c);
    assert c in s;
    assert !(k < i < |s|);
  }

  lemma IndexOf(a: string, c: char, b: string)
    requires c !in a
    ensures Index(a + [c] + b, c) == |a|
  {
    var s := a + [c] + b;
    assert s[|a|] == c;
    assert forall j :: 0 <= j < |a| ==> s[j] == a[j];
  }

  /** Once the scheme is gone, the name is whatever precedes the first dot. */
  lemma HostName(name: string, service: string, namespace: string)
    ensures var s := name + "." + service + "." + namespace + PeerSuffix;
            && LastIndex(s, ':') == |s| - 5
            && (DotFree(name) ==> Index(s[..|s| - 5], '.') == |name|)
            && (!DotFree(name) ==> Index(s[..|s| - 5], '.') < |name|)
  {
    var s := name + "." + service + "." + namespace + PeerSuffix;
    var host := name + "." + service + "." + namespace + ".svc";
    assert s == host + [':'] + "2380";
    assert forall j :: |host| < j < |s| ==> s[j] == "2380"[j - |host| - 1];
    LastIndexIs(s, ':', |host|);
    assert s[..|s| - 5] == host;
    if DotFree(name) {
      assert host == name + ['.'] + (service + "." + namespace + ".svc");
      IndexOf(name, '.', service + "." + namespace + ".svc");
    } else {
      var k :| 0 <= k < |name| && name[k] == '.';
      assert host[k] == '.';
    }
  }

  lemma RecoverHost(name: string, tail: string, service: string, namespace: string)
    requires tail == "." + service + "." + namespace + PeerSuffix
    ensures |NameOfHost(name + tail)| <= |name|
    ensures NameOfHost(name + tail) == name <==> DotFree(name)
  {
    assert name + tail == name + "." + service + "." + namespace + PeerSuffix;
    HostName(name, service, namespace);
    var s := name + tail;
    assert DotFree(name) ==> s[..|s| - 5][..|name|] == name;
  }

  /** The one name of a dot-free kind that the recovery gets wrong. */
  predicate LooksLikeURL(scheme: string, name: string) {
    scheme == "http" && "https://" <= name
  }

  lemma TrimHttps(rest: string)
    ensures HostOf("https://" + rest) == rest
  {
    var u := "https://" + rest;
    assert u[4] == 's';
    assert !("http://" <= u);
    assert u[|"https://"|..] == rest;
  }

  lemma TrimHttp(rest: string)
    ensures HostOf("http://" + rest) == TrimPrefix(rest, "https://")
  {
    var u := "http://" + rest;
    assert u[|"http://"|..] == rest;
  }

  lemma PrefixOfHost(name: string, tail: string)
    requires tail != [] && tail[0] == '.'
    ensures "https://" <= name + tail <==> "https://" <= name
  {
    var s := name + tail;
    assert s[|name|] == '.';
    assert |name| < 8 ==> "https://"[|name|] != '.';
    assert |name| >= 8 ==> s[..8] == name[..8];
  }

  /**
   * memberNameFromPeerURL inverts peerURL for exactly the dot-free names that
   * do not themselves start like a URL; every Kubernetes name is one of them.
   */
  lemma NameRoundTrip(scheme: string, name: string, service: string, namespace: string)
    requires scheme == "http" || scheme == "https"
    ensures MemberNameFromPeerURL(PeerURL(scheme, name, service, namespace)) == name
            <==> DotFree(name) && !LooksLikeURL(scheme, name)
  {
    if scheme == "https" {
      RoundTripHttps(name, service, namespace);
    } else {
      RoundTripHttp(name, service, namespace);
    }
  }

  function Tail(service: string, namespace: string): string {
    "." + service + "." + namespace + PeerSuffix
  }

  lemma PeerURLShape(scheme: string, name: string, service: string, namespace: string)
    ensures PeerURL(scheme, name, service, namespace) == (scheme + "://") + (name + Tail(service, namespace))
  {
  }

  lemma RoundTripHttps(name: string, service: string, namespace: string)
    ensures MemberNameFromPeerURL(PeerURL("https", name, service, namespace)) == name <==> DotFree(name)
  {
    var tail := Tail(service, namespace);
    PeerURLShape("https", name, service, namespace);
    assert "https" + "://" == "https://";
    TrimHttps(name + tail);
    RecoverHost(name, tail, service, namespace);
  }

  lemma NestedScheme(name: string, tail: string)
    requires tail != [] && tail[0] == '.'
    ensures TrimPrefix(name + tail, "https://") == if "https://" <= name then name[8..] + tail else name + tail
  {
    PrefixOfHost(name, tail);
    assert |name| >= 8 ==> (name + tail)[8..] == name[8..] + tail;
  }

  /** What is left of an http URL: a second, nested scheme is taken off as well. */
  lemma HttpHost(name: string, service: string, namespace: string)
    ensures var tail := Tail(service, namespace);
            HostOf(PeerURL("http", name, service, namespace)) == if "https://" <= name then name[8..] + tail else name + tail
  {
    var tail := Tail(service, namespace);
    PeerURLShape("http", name, service, namespace);
    assert "http" + "://" == "http://";
    TrimHttp(name + tail);
    NestedScheme(name, tail);
  }

  lemma RoundTripHttp(name: string, service: string, namespace: string)
    ensures MemberNameFromPeerURL(PeerURL("http", name, service, namespace)) == name
            <==> DotFree(name) && !("https://" <= name)
  {
    var tail := Tail(service, namespace);
    HttpHost(name, service, namespace);
    if "https://" <= name {
      RecoverHost(name[8..], tail, service, namespace);
    } else {
      RecoverHost(name, tail, service, namespace);
    }
  }

  // ---- The flag ----

  /** An entry of etcd's MemberList; the name stays empty until the member's process has started. */
  datatype Listed = Listed(name: string, peerURLs: seq<string>)

  function NameOf(m: Listed): string
    requires m.peerURLs != []
  {
    if m.name == "" then MemberNameFromPeerURL(m.peerURLs[0]) else m.name
  }

  function Part(m: Listed): Option<string> {
    if m.peerURLs == [] || NameOf(m) == "" then None else Some(NameOf(m) + "=" + m.peerURLs[0])
  }

  function Parts(ms: seq<Listed>): seq<string> {
    if ms == [] then []
    else
      var rest := Parts(ms[..|ms| - 1]);
      match Part(ms[|ms| - 1])
      case None => rest
      case Some(p) => rest + [p]
  }

  function Self(s: string): string { s }

  ghost predicate Sorted(s: seq<string>) {
    SortedBy(s, Self)
  }

  /** strings.Join(parts, ","). */
  function Join(parts: seq<string>): string {
    if parts == [] then "" else if |parts| == 1 then parts[0] else parts[0] + "," + Join(parts[1..])
  }

  /** The flag for a member list: its parts, each once, in order. */
  ghost predicate IsFlag(members: seq<Listed>, flag: string) {
    exists parts :: Sorted(parts) && multiset(parts) == multiset(Parts(members)) && flag == Join(parts)
  }

  method PartOf(m: Listed) returns (p: Option<string>)
    ensures p == Part(m)
  {
    if |m.peerURLs| == 0 {
      return None;
    }
    var name := m.name;
    if name == "" {
      name := MemberNameFromPeerURL(m.peerURLs[0]);
    }
    if name == "" {
      return None;
    }
    p := Some(name + "=" + m.peerURLs[0]);
  }

  lemma PartsStep(ms: seq<Listed>, i: nat)
    requires i < |ms|
    ensures Parts(ms[..i + 1]) == match Part(ms[i]) case None => Parts(ms[..i]) case Some(p) => Parts(ms[..i]) + [p]
  {
    assert ms[..i + 1][..i] == ms[..i];
  }

  /** completePendingMember's assembly of spec.initialCluster from a member list. */
  method BuildInitialCluster(members: seq<Listed>) returns (flag: string)
    ensures IsFlag(members, flag)
  {
    var sorted: seq<string> := [];
    for i := 0 to |members|
      invariant Sorted(sorted) && multiset(sorted) == multiset(Parts(members[..i]))
    {
      PartsStep(members, i);
      var part := PartOf(members[i]);
      if part.Some? {
        sorted := InsertSorted(sorted, part.value, Self);
      }
    }
    assert members[..|members|] == members;
    flag := Join(sorted);
  }

  // ---- The flag does not depend on the listing order ----

  function CountPart(ms: seq<Listed>, p: string): nat {
    if ms == [] then 0 else CountPart(ms[..|ms| - 1], p) + if Part(ms[|ms| - 1]) == Some(p) then 1 else 0
  }

  lemma {:induction false} PartsCount(ms: seq<Listed>, p: string)
    ensures multiset(Parts(ms))[p] == CountPart(ms, p)
  {
    if ms != [] {
      PartsCount(ms[..|ms| - 1], p);
    }
  }

  lemma {:induction false} CountConcat(a: seq<Listed>, b: seq<Listed>, p: string)
    ensures CountPart(a + b, p) == CountPart(a, p) + CountPart(b, p)
  {
    if b == [] {
      assert a + b == a;
    } else {
      assert (a + b)[..|a + b| - 1] == a + b[..|b| - 1];
      CountConcat(a, b[..|b| - 1], p);
    }
  }

  lemma CountExtract(a: seq<Listed>, x: Listed, b: seq<Listed>, p: string)
    ensures CountPart(a + [x] + b, p) == CountPart(a + b, p) + CountPart([x], p)
  {
    CountConcat(a + [x], b, p);
    CountConcat(a, [x], p);
    CountConcat(a, b, p);
  }

  lemma TakeOut(ns: seq<Listed>, x: Listed) returns (a: seq<Listed>, b: seq<Listed>)
    requires x in multiset(ns)
    ensures ns == a + [x] + b && multiset(a + b) == multiset(ns) - multiset{x}
  {
    var k :| 0 <= k < |ns| && ns[k] == x;
    a, b := ns[..k], ns[k + 1..];
    assert ns == a + [x] + b;
  }

  lemma CountFirst(ms: seq<Listed>, p: string)
    requires ms != []
    ensures CountPart(ms, p) == CountPart(ms[1..], p) + CountPart([ms[0]], p)
  {
    CountConcat([ms[0]], ms[1..], p);
    assert [ms[0]] + ms[1..] == ms;
  }

  lemma WithoutFirst(ms: seq<Listed>)
    requires ms != []
    ensures multiset(ms[1..]) == multiset(ms) - multiset{ms[0]}
  {
    assert ms == [ms[0]] + ms[1..];
  }

  lemma {:induction false} CountPermute(ms: seq<Listed>, ns: seq<Listed>, p: string)
    requires multiset(ms) == multiset(ns)
    ensures CountPart(ms, p) == CountPart(ns, p)
    decreases |ms|
  {
    if ms == [] {
      assert |multiset(ns)| == 0;
    } else {
      var x := ms[0];
      assert x in multiset(ms);
      WithoutFirst(ms);
      var a, b := TakeOut(ns, x);
      CountPermute(ms[1..], a + b, p);
      CountFirst(ms, p);
      CountExtract(a, x, b, p);
    }
  }

  lemma SmallestFirst(a: seq<string>, b: seq<string>)
    requires Sorted(a) && Sorted(b) && multiset(a) == multiset(b) && a != [] && b != []
    ensures a[0] == b[0]
  {
    assert a[0] in multiset(b) && b[0] in multiset(a);
    var i :| 0 <= i < |b| && b[i] == a[0];
    var j :| 0 <= j < |a| && a[j] == b[0];
    StringLeqTotal(a[0], a[0]);
    StringLeqTotal(b[0], b[0]);
    StringLeqAntisymmetric(a[0], b[0]);
  }

  lemma TailOf(a: seq<string>)
    requires a != []
    ensures multiset(a[1..]) == multiset(a) - multiset{a[0]} && a == [a[0]] + a[1..]
    ensures Sorted(a) ==> Sorted(a[1..])
  {
    assert a == [a[0]] + a[1..];
  }

  lemma {:induction false} SortedUnique(a: seq<string>, b: seq<string>)
    requires Sorted(a) && Sorted(b) && multiset(a) == multiset(b)
    ensures a == b
  {
    assert |a| == |multiset(a)| == |multiset(b)| == |b|;
    if a != [] {
      SmallestFirst(a, b);
      TailOf(a);
      TailOf(b);
      SortedUnique(a[1..], b[1..]);
    }
  }

  /** Whatever order etcd lists its members in, the joiner gets the same flag. */
  lemma FlagOrderIndependent(ms: seq<Listed>, ns: seq<Listed>, f: string, g: string)
    requires multiset(ms) == multiset(ns) && IsFlag(ms, f) && IsFlag(ns, g)
    ensures f == g
  {
    var p :| Sorted(p) && multiset(p) == multiset(Parts(ms)) && f == Join(p);
    var q :| Sorted(q) && multiset(q) == multiset(Parts(ns)) && g == Join(q);
    forall e ensures multiset(p)[e] == multiset(q)[e] {
      CountPermute(ms, ns, e);
      PartsCount(ms, e);
      PartsCount(ns, e);
    }
    SortedUnique(p, q);
  }

  // ---- What the flag says ----

  /** etcd reads the flag back by splitting it at commas. */
  function Split(s: string): seq<string> {
    var i := Index(s, ',');
    if i == |s| then [s] else [s[..i]] + Split(s[i + 1..])
  }

  lemma {:induction false} NoIndex(s: string, c: char)
    requires c !in s
    ensures Index(s, c) == |s|
  {
    if s != [] {
      NoIndex(s[1..], c);
    }
  }

  lemma {:induction false} SplitJoin(parts: seq<string>)
    requires parts != [] && forall p :: p in parts ==> ',' !in p
    ensures Split(Join(parts)) == parts
  {
    if |parts| == 1 {
      var p := parts[0];
      assert p in parts;
      NoIndex(p, ',');
    } else {
      var s := Join(parts);
      assert s == parts[0] + [','] + Join(parts[1..]);
      IndexOf(parts[0], ',', Join(parts[1..]));
      assert s[..|parts[0]|] == parts[0] && s[|parts[0]| + 1..] == Join(parts[1..]);
      SplitJoin(parts[1..]);
      assert parts == [parts[0]] + parts[1..];
    }
  }

  /** The flag splits into exactly one entry per listed member that has a peer URL and a recoverable name. */
  lemma FlagEntries(ms: seq<Listed>, f: string, p: string)
    requires IsFlag(ms, f) && Parts(ms) != []
    requires forall q :: q in Parts(ms) ==> ',' !in q
    ensures multiset(Split(f))[p] == CountPart(ms, p)
  {
    var parts :| Sorted(parts) && multiset(parts) == multiset(Parts(ms)) && f == Join(parts);
    assert parts != [] by {
      assert Parts(ms)[0] in multiset(Parts(ms));
    }
    forall q | q in parts ensures ',' !in q {
      assert q in multiset(parts);
    }
    SplitJoin(parts);
    PartsCount(ms, p);
  }

  lemma {:induction false} CountMember(ms: seq<Listed>, i: nat, p: string)
    requires i < |ms| && Part(ms[i]) == Some(p)
    ensures CountPart(ms, p) >= 1
  {
    if i < |ms| - 1 {
      CountMember(ms[..|ms| - 1], i, p);
    }
  }

  /** The member list the flag is built from: as listed, or as returned by MemberAddAsLearner. */
  function AfterAdd(ms: seq<Listed>, url: string): seq<Listed> {
    if exists m :: m in ms && url in m.peerURLs then ms else ms + [Listed("", [url])]
  }

  /** The operator registers one URL per member, and nobody else registers the joiner's. */
  ghost predicate RegisteredByOperator(ms: seq<Listed>, name: string, url: string) {
    forall m :: m in ms && url in m.peerURLs ==> m.peerURLs == [url] && (m.name == "" || m.name == name)
  }

  /** On both sides of the crash window the joiner finds itself in its own flag, which is therefore not empty. */
  lemma JoinerInFlag(ms: seq<Listed>, scheme: string, name: string, service: string, namespace: string, f: string)
    requires scheme == "http" || scheme == "https"
    requires name != "" && DotFree(name) && !LooksLikeURL(scheme, name)
    requires var url := PeerURL(scheme, name, service, namespace);
             RegisteredByOperator(ms, name, url) && IsFlag(AfterAdd(ms, url), f)
             && forall q :: q in Parts(AfterAdd(ms, url)) ==> ',' !in q
    ensures name + "=" + PeerURL(scheme, name, service, namespace) in Split(f)
    ensures f != ""
  {
    var url := PeerURL(scheme, name, service, namespace);
    var ns := AfterAdd(ms, url);
    var p := name + "=" + url;
    NameRoundTrip(scheme, name, service, namespace);
    var i := JoinerIndex(ms, name, url);
    CountMember(ns, i, p);
    PartsCount(ns, p);
    assert p in multiset(Parts(ns));
    FlagEntries(ns, f, p);
    assert Split("") == [""];
  }

  lemma JoinerIndex(ms: seq<Listed>, name: string, url: string) returns (i: nat)
    requires RegisteredByOperator(ms, name, url) && MemberNameFromPeerURL(url) == name && name != ""
    ensures var ns := AfterAdd(ms, url); i < |ns| && Part(ns[i]) == Some(name + "=" + url)
  {
    if m :| m in ms && url in m.peerURLs {
      i :| 0 <= i < |ms| && ms[i] == m;
    } else {
      i := |ms|;
    }
  }
}
