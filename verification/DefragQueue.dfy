/**
 * Runs that target the same cluster take turns: only the oldest open one acts.
 */
module DefragQueue {
  import opened Base
  import opened Defrag
  import opened DefragRuns

  datatype Entry = Entry(spec: Spec, status: Status)

  type Queue = map<string, Entry>

  predicate Open(e: Entry) { !Terminal(e.status.phase) }

  /** Creation time first, name as the tiebreak. */
  predicate Before(a: Spec, b: Spec) {
    a.created < b.created || (a.created == b.created && a.name != b.name && StringLeq(a.name, b.name))
  }

  lemma BeforeTotal(a: Spec, b: Spec)
    requires a.name != b.name
    ensures Before(a, b) <==> !Before(b, a)
  {
    StringLeqTotal(a.name, b.name);
    if StringLeq(a.name, b.name) && StringLeq(b.name, a.name) {
      StringLeqAntisymmetric(a.name, b.name);
    }
  }

  lemma BeforeTransitive(a: Spec, b: Spec, c: Spec)
    requires Before(a, b) && Before(b, c)
    ensures Before(a, c)
  {
    if a.created == b.created == c.created {
      StringLeqTransitive(a.name, b.name, c.name);
      if a.name == c.name {
        StringLeqAntisymmetric(a.name, b.name);
      }
    }
  }

  // ---- The oldest active run of a listing ----

  datatype Item = Item(cluster: string, spec: Spec, phase: Phase)

  predicate Eligible(i: Item, cluster: string) {
    i.cluster == cluster && !Terminal(i.phase)
  }

  /** Of the first n items, item k is eligible and precedes every other eligible one. */
  ghost predicate Oldest(items: seq<Item>, cluster: string, n: nat, k: nat)
    requires n <= |items|
  {
    && k < n && Eligible(items[k], cluster)
    && forall i :: 0 <= i < n && i != k && Eligible(items[i], cluster) ==> Before(items[k].spec, items[i].spec)
  }

  /** oldestActive: the eligible run that precedes every other one, "" if there is none. */
  method OldestActive(items: seq<Item>, cluster: string) returns (name: string)
    requires forall i, j :: 0 <= i < j < |items| ==> items[i].spec.name != items[j].spec.name
    requires forall i :: 0 <= i < |items| ==> items[i].spec.name != ""
    ensures name == "" <==> forall i :: 0 <= i < |items| ==> !Eligible(items[i], cluster)
    ensures name != "" ==> exists k :: 0 <= k < |items| && items[k].spec.name == name && Oldest(items, cluster, |items|, k)
  {
    var best := |items|;
    for n := 0 to |items|
      invariant 0 <= best <= |items|
      invariant best == |items| ==> forall i :: 0 <= i < n ==> !Eligible(items[i], cluster)
      invariant best < |items| ==> Oldest(items, cluster, n, best)
    {
      if Eligible(items[n], cluster) {
        if best == |items| {
          best := n;
        } else {
          BeforeTotal(items[n].spec, items[best].spec);
          if Before(items[n].spec, items[best].spec) {
            forall i | 0 <= i < n && Eligible(items[i], cluster) ensures Before(items[n].spec, items[i].spec) {
              if i != best {
                BeforeTransitive(items[n].spec, items[best].spec, items[i].spec);
              }
            }
            best := n;
          }
        }
      }
    }
    if best == |items| {
      return "";
    }
    name := items[best].spec.name;
  }

  // ---- Queue histories ----

  ghost predicate Named(q: Queue) {
    "" !in q && forall n :: n in q ==> q[n].spec.name == n
  }

  ghost predicate IsHead(q: Queue, n: string) {
    && n in q && Open(q[n])
    && forall m :: m in q && m != n && Open(q[m]) ==> Before(q[n].spec, q[m].spec)
  }

  datatype Event =
    | Reconcile(name: string, pass: Pass)
    | Arrive(spec: Spec)
    | Remove(name: string)

  function QNext(q: Queue, e: Event): Queue {
    match e
    case Reconcile(n, p) => if n in q then q[n := Entry(q[n].spec, After(q[n].spec, q[n].status, p))] else q
    case Arrive(spec) => if spec.name in q || spec.name == "" then q else q[spec.name := Entry(spec, Fresh)]
    case Remove(n) => q - {n}
  }

  /** A reconcile learns the head from a fresh list. */
  ghost predicate Faithful(q: Queue, e: Event) {
    match e
    case Reconcile(n, p) =>
      if exists m :: m in q && Open(q[m]) then IsHead(q, p.head) else p.head == ""
    case _ => true
  }

  /** Only the head's work list moves. */
  lemma OnlyHeadAdvances(q: Queue, n: string, p: Pass, m: string)
    requires Named(q) && m in q && !IsHead(q, m) && Faithful(q, Reconcile(n, p))
    ensures var e, next := q[m], QNext(q, Reconcile(n, p))[m];
            next.status.work == e.status.work && next.status.times.started == e.status.times.started
  {
  }

  predicate Underway(e: Entry) {
    Open(e) && e.status.times.started.Some?
  }

  /** A run that has started and is not over is the head; so at most one run is in mid-sweep. */
  ghost predicate Serial(q: Queue) {
    forall n :: n in q && Underway(q[n]) ==> IsHead(q, n)
  }

  lemma SerialMeansOne(q: Queue, a: string, b: string)
    requires Named(q) && Serial(q) && a in q && b in q && Underway(q[a]) && Underway(q[b])
    ensures a == b
  {
    if a != b {
      BeforeTotal(q[a].spec, q[b].spec);
    }
  }

  predicate Preempts(spec: Spec, q: Queue) {
    exists n :: n in q && Underway(q[n]) && Before(spec, q[n].spec)
  }

  /** An arrival breaks the turn-taking exactly when it precedes a run that is already under way. */
  lemma ArrivalPreempts(q: Queue, spec: Spec)
    requires Named(q) && Serial(q) && spec.name !in q && spec.name != ""
    ensures Serial(QNext(q, Arrive(spec))) <==> !Preempts(spec, q)
  {
    var r := QNext(q, Arrive(spec));
    forall n | n in q && Underway(q[n]) ensures IsHead(r, n) <==> !Before(spec, q[n].spec) {
      BeforeTotal(spec, q[n].spec);
      assert r[spec.name].spec == spec;
    }
    assert forall n :: n in q ==> r[n] == q[n];
  }

  /** A preempted run is sent back to Pending by its next pass, with its work list untouched. */
  lemma PreemptedRunWaits(q: Queue, spec: Spec, n: string, p: Pass)
    requires Named(q) && Serial(q) && spec.name !in q && spec.name != ""
    requires n in q && Underway(q[n]) && Before(spec, q[n].spec)
    requires !p.lost && (p.facts.Probed? || p.facts.DialFailed?) && Faithful(QNext(q, Arrive(spec)), Reconcile(n, p))
    ensures var next := QNext(QNext(q, Arrive(spec)), Reconcile(n, p))[n];
            next.status.phase == Pending && next.status.work == q[n].status.work && Underway(next)
  {
    var r := QNext(q, Arrive(spec));
    assert r[spec.name].spec == spec && r[n] == q[n];
    forall m | m in r && m != spec.name && Open(r[m]) ensures Before(spec, r[m].spec) {
      if m != n {
        assert Before(q[n].spec, q[m].spec);
        BeforeTransitive(spec, q[n].spec, q[m].spec);
      }
    }
    assert IsHead(r, spec.name);
    BeforeTotal(spec, q[n].spec);
  }

  lemma ReconcileKeepsSerial(q: Queue, n: string, p: Pass)
    requires Named(q) && Serial(q) && Faithful(q, Reconcile(n, p)) && n in q
    ensures Serial(QNext(q, Reconcile(n, p)))
  {
    var r := QNext(q, Reconcile(n, p));
    var s := q[n].status;
    StepContinues(q[n].spec, s, p.head, p.facts, p.now);
    forall m | m in r && Underway(r[m]) ensures IsHead(r, m) {
      if !IsHead(q, m) {
        assert m == n;
        HeadStarts(q, n, p);
      }
    }
  }

  lemma HeadStarts(q: Queue, n: string, p: Pass)
    requires Named(q) && Serial(q) && Faithful(q, Reconcile(n, p)) && n in q && !IsHead(q, n)
    ensures !Underway(QNext(q, Reconcile(n, p))[n])
  {
  }

  /** Nobody queues up in front of a run under way. */
  ghost predicate Orderly(q: Queue, e: Event) {
    Faithful(q, e) && (e.Arrive? ==> !Preempts(e.spec, q))
  }

  ghost predicate OrderlyRun(es: seq<Event>)
  {
    forall k :: 0 <= k < |es| ==> Orderly(QRun(es[..k]), es[k])
  }

  function QRun(es: seq<Event>): Queue {
    if es == [] then map[] else QNext(QRun(es[..|es| - 1]), es[|es| - 1])
  }

  lemma NextKeepsSerial(q: Queue, e: Event)
    requires Named(q) && Serial(q) && Orderly(q, e)
    ensures Named(QNext(q, e)) && Serial(QNext(q, e))
  {
    match e
    case Reconcile(n, p) =>
      if n in q {
        ReconcileKeepsSerial(q, n, p);
      }
    case Arrive(spec) =>
      if spec.name !in q && spec.name != "" {
        ArrivalPreempts(q, spec);
      }
    case Remove(n) =>
  }

  /** In every orderly history at most one run of the cluster is in mid-sweep, and it is the oldest open one. */
  lemma {:induction false} OneSweepAtATime(es: seq<Event>)
    requires OrderlyRun(es)
    ensures Named(QRun(es)) && Serial(QRun(es))
    ensures var q := QRun(es);
            && (forall n :: n in q && Underway(q[n]) ==> IsHead(q, n))
            && forall a, b :: a in q && b in q && Underway(q[a]) && Underway(q[b]) ==> a == b
  {
    if es != [] {
      var n := |es| - 1;
      forall k | 0 <= k < n ensures Orderly(QRun(es[..n][..k]), es[..n][k]) {
        assert es[..n][..k] == es[..k];
      }
      OneSweepAtATime(es[..n]);
      NextKeepsSerial(QRun(es[..n]), es[n]);
    }
    var q := QRun(es);
    forall a, b | a in q && b in q && Underway(q[a]) && Underway(q[b]) ensures a == b {
      SerialMeansOne(q, a, b);
    }
  }

  lemma LaterNeverPreempts(q: Queue, spec: Spec)
    requires forall n :: n in q ==> q[n].spec.created < spec.created
    ensures !Preempts(spec, q)
  {
  }

  /** Histories whose runs are created at strictly increasing times are orderly. */
  lemma IncreasingTimesAreOrderly(es: seq<Event>)
    requires forall k :: 0 <= k < |es| ==> Faithful(QRun(es[..k]), es[k])
    requires forall k :: 0 <= k < |es| && es[k].Arrive? ==> forall n :: n in QRun(es[..k]) ==> QRun(es[..k])[n].spec.created < es[k].spec.created
    ensures OrderlyRun(es)
  {
    forall k | 0 <= k < |es| ensures Orderly(QRun(es[..k]), es[k]) {
      if es[k].Arrive? {
        LaterNeverPreempts(QRun(es[..k]), es[k].spec);
      }
    }
  }
}
