/** Shared vocabulary. */
module Base {

  datatype Option<+T> = None | Some(value: T)

  /** Bytewise order of Go strings. */
  predicate StringLeq(a: string, b: string) {
    a == [] || (b != [] && (a[0] < b[0] || (a[0] == b[0] && StringLeq(a[1..], b[1..]))))
  }

  lemma StringLeqTotal(a: string, b: string)
    ensures StringLeq(a, b) || StringLeq(b, a)
  {
  }

  lemma StringLeqTransitive(a: string, b: string, c: string)
    requires StringLeq(a, b) && StringLeq(b, c)
    ensures StringLeq(a, c)
  {
  }

  lemma {:induction false} StringLeqAntisymmetric(a: string, b: string)
    requires StringLeq(a, b) && StringLeq(b, a)
    ensures a == b
  {
    if a != [] && b != [] {
      StringLeqAntisymmetric(a[1..], b[1..]);
      assert a == [a[0]] + a[1..] && b == [b[0]] + b[1..];
    }
  }

  /** A majority of `all`: strictly more than half of its members. */
  ghost predicate Majority<T>(q: set<T>, all: set<T>) {
    q <= all && 2 * |q| > |all|
  }

  lemma CardinalitySplit<T>(a: set<T>, b: set<T>)
    ensures |a + b| + |a * b| == |a| + |b|
  {
    assert a + b == a + (b - a);
    assert a !! (b - a);
    assert b == (b - a) + (a * b);
  }

  lemma SubsetCardinality<T>(a: set<T>, b: set<T>)
    requires a <= b
    ensures |a| <= |b|
  {
    assert b == a + (b - a);
  }

  /**
   * Two electorates, one obtained from the other by adding a single member:
   * every majority of either meets every majority of the other.
   */
  lemma MajoritiesMeet<T>(small: set<T>, x: T, q: set<T>, r: set<T>)
    requires x !in small
    requires Majority(q, small) && Majority(r, small + {x})
    ensures q * r != {}
  {
    CardinalitySplit(q, r);
    SubsetCardinality(q + r, small + {x});
  }

  function InsertAt<T>(s: seq<T>, k: nat, x: T): seq<T>
    requires k <= |s|
  {
    s[..k] + [x] + s[k..]
  }

  lemma InsertAtIndex<T>(s: seq<T>, k: nat, x: T, i: nat)
    requires k <= |s| && i <= |s|
    ensures InsertAt(s, k, x)[i] == if i < k then s[i] else if i == k then x else s[i - 1]
  {
  }

  lemma InsertAtMultiset<T>(s: seq<T>, k: nat, x: T)
    requires k <= |s|
    ensures multiset(InsertAt(s, k, x)) == multiset(s) + multiset{x}
  {
    assert s == s[..k] + s[k..];
  }

  /** Ascending by key. */
  ghost predicate SortedBy<T>(s: seq<T>, key: T -> string) {
    forall i, j :: 0 <= i < j < |s| ==> StringLeq(key(s[i]), key(s[j]))
  }

  lemma InsertAtSorted<T>(s: seq<T>, k: nat, x: T, key: T -> string)
    requires SortedBy(s, key) && k <= |s|
    requires k > 0 ==> StringLeq(key(s[k - 1]), key(x))
    requires forall i :: k <= i < |s| ==> StringLeq(key(x), key(s[i]))
    ensures SortedBy(InsertAt(s, k, x), key)
  {
    var t := InsertAt(s, k, x);
    forall i | 0 <= i < k ensures StringLeq(key(s[i]), key(x)) {
      if i < k - 1 { StringLeqTransitive(key(s[i]), key(s[k - 1]), key(x)); }
    }
    forall i, j | 0 <= i < j < |t| ensures StringLeq(key(t[i]), key(t[j])) {
      InsertAtIndex(s, k, x, i);
      InsertAtIndex(s, k, x, j);
    }
  }

  /** One step of an insertion sort. */
  method InsertSorted<T>(s: seq<T>, x: T, key: T -> string) returns (t: seq<T>)
    requires SortedBy(s, key)
    ensures SortedBy(t, key) && multiset(t) == multiset(s) + multiset{x}
  {
    var k := |s|;
    while k > 0 && !StringLeq(key(s[k - 1]), key(x))
      invariant 0 <= k <= |s|
      invariant forall i :: k <= i < |s| ==> StringLeq(key(x), key(s[i]))
    {
      StringLeqTotal(key(s[k - 1]), key(x));
      k := k - 1;
    }
    t := InsertAt(s, k, x);
    InsertAtSorted(s, k, x, key);
    InsertAtMultiset(s, k, x);
  }
}
