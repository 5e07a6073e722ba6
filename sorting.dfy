/**
 * Python's `list.sort(key=..., reverse=True)`: a stable sort into
 * non-increasing key order. Keys are tuples of numbers, compared the way
 * Python compares tuples; a plain number key is a one-element tuple.
 */
module Sorting {
  import opened Sequences

  /** `a <= b` for Python tuples: lexicographic, a proper prefix is smaller. */
  predicate KeyLe(a: seq<int>, b: seq<int>)
    decreases |a|
  {
    if a == [] then true
    else if b == [] then false
    else a[0] < b[0] || (a[0] == b[0] && KeyLe(a[1..], b[1..]))
  }

  lemma {:induction false} KeyLeReflexive(a: seq<int>)
    ensures KeyLe(a, a)
    decreases |a|
  {
    if a != [] { KeyLeReflexive(a[1..]); }
  }

  lemma {:induction false} KeyLeTotal(a: seq<int>, b: seq<int>)
    ensures KeyLe(a, b) || KeyLe(b, a)
    decreases |a|
  {
    if a != [] && b != [] && a[0] == b[0] { KeyLeTotal(a[1..], b[1..]); }
  }

  lemma {:induction false} KeyLeTransitive(a: seq<int>, b: seq<int>, c: seq<int>)
    requires KeyLe(a, b) && KeyLe(b, c)
    ensures KeyLe(a, c)
    decreases |a|
  {
    if a != [] && b != [] && c != [] && a[0] == b[0] == c[0] {
      KeyLeTransitive(a[1..], b[1..], c[1..]);
    }
  }

  lemma {:induction false} KeyLeAntisymmetric(a: seq<int>, b: seq<int>)
    requires KeyLe(a, b) && KeyLe(b, a)
    ensures a == b
    decreases |a|
  {
    if a != [] {
      KeyLeAntisymmetric(a[1..], b[1..]);
      assert a == [a[0]] + a[1..] && b == [b[0]] + b[1..];
    }
  }

  /** Every element's key is at most the key of every element before it. */
  ghost predicate SortedDesc<T>(s: seq<T>, key: T -> seq<int>) {
    forall i, j :: 0 <= i < j < |s| ==> KeyLe(key(s[j]), key(s[i]))
  }

  /**
   * Puts `x` in front of the first element whose key is not greater than its
   * own, so that `x` precedes the elements with an equal key.
   */
  function Insert<T>(x: T, t: seq<T>, key: T -> seq<int>): (r: seq<T>)
    ensures |r| == |t| + 1
    ensures multiset(r) == multiset(t) + multiset{x}
  {
    if t == [] || KeyLe(key(t[0]), key(x)) then [x] + t
    else
      assert t == [t[0]] + t[1..];
      [t[0]] + Insert(x, t[1..], key)
  }

  /** The sorted copy of `s`: a permutation of it. */
  function SortDesc<T>(s: seq<T>, key: T -> seq<int>): (r: seq<T>)
    ensures |r| == |s|
    ensures multiset(r) == multiset(s)
  {
    if s == [] then []
    else
      assert s == [s[0]] + s[1..];
      Insert(s[0], SortDesc(s[1..], key), key)
  }

  lemma InsertFront<T>(x: T, t: seq<T>, key: T -> seq<int>)
    requires t == [] || KeyLe(key(t[0]), key(x))
    ensures Insert(x, t, key) == [x] + t
  {
  }

  lemma InsertPast<T>(x: T, t: seq<T>, key: T -> seq<int>)
    requires t != [] && !KeyLe(key(t[0]), key(x))
    ensures Insert(x, t, key) == [t[0]] + Insert(x, t[1..], key)
  {
  }

  lemma SortDescCons<T>(s: seq<T>, key: T -> seq<int>)
    requires s != []
    ensures SortDesc(s, key) == Insert(s[0], SortDesc(s[1..], key), key)
  {
  }

  /** Sorting keeps exactly the elements it was given. */
  lemma SortDescMembers<T>(s: seq<T>, key: T -> seq<int>)
    ensures forall x :: x in SortDesc(s, key) <==> x in s
  {
    var r := SortDesc(s, key);
    forall x ensures x in r <==> x in s {
      assert x in r <==> x in multiset(r);
      assert x in s <==> x in multiset(s);
    }
  }

  /** Inserting under a bound that `x` and every element of `t` respect keeps every element under it. */
  lemma InsertBounded<T>(x: T, t: seq<T>, key: T -> seq<int>, b: seq<int>)
    requires KeyLe(key(x), b)
    requires forall i :: 0 <= i < |t| ==> KeyLe(key(t[i]), b)
    ensures forall j :: 0 <= j < |Insert(x, t, key)| ==> KeyLe(key(Insert(x, t, key)[j]), b)
  {
    var u := Insert(x, t, key);
    forall j | 0 <= j < |u| ensures KeyLe(key(u[j]), b) {
      assert u[j] in multiset(u);
      if u[j] != x {
        assert u[j] in multiset(t);
        var k :| 0 <= k < |t| && t[k] == u[j];
      }
    }
  }

  lemma {:induction false} InsertSorted<T>(x: T, t: seq<T>, key: T -> seq<int>)
    requires SortedDesc(t, key)
    ensures SortedDesc(Insert(x, t, key), key)
  {
    if t == [] {
    } else if KeyLe(key(t[0]), key(x)) {
      var r := [x] + t;
      forall i, j | 0 <= i < j < |r| ensures KeyLe(key(r[j]), key(r[i])) {
        if i == 0 && j > 1 {
          KeyLeTransitive(key(t[j - 1]), key(t[0]), key(x));
        }
      }
    } else {
      KeyLeTotal(key(t[0]), key(x));
      var u := Insert(x, t[1..], key);
      InsertSorted(x, t[1..], key);
      assert forall i :: 0 <= i < |t[1..]| ==> t[1..][i] == t[i + 1];
      InsertBounded(x, t[1..], key, key(t[0]));
      var r := [t[0]] + u;
      assert Insert(x, t, key) == r;
      forall i, j | 0 <= i < j < |r| ensures KeyLe(key(r[j]), key(r[i])) {
        if i == 0 {
          assert r[j] == u[j - 1];
        } else {
          assert r[i] == u[i - 1] && r[j] == u[j - 1];
        }
      }
    }
  }

  /** The output of the sort is in non-increasing key order. */
  lemma {:induction false} SortDescSorted<T>(s: seq<T>, key: T -> seq<int>)
    ensures SortedDesc(SortDesc(s, key), key)
  {
    if s != [] {
      SortDescSorted(s[1..], key);
      InsertSorted(s[0], SortDesc(s[1..], key), key);
    }
  }

  /** The elements of `s` whose key is `k`, in their order in `s`. */
  function WithKey<T(==)>(s: seq<T>, key: T -> seq<int>, k: seq<int>): (r: seq<T>)
    ensures forall i :: 0 <= i < |r| ==> key(r[i]) == k
    ensures forall i :: 0 <= i < |s| && key(s[i]) == k ==> s[i] in r
    ensures Subsequence(r, s)
    ensures |r| <= |s|
  {
    if s == [] then []
    else
      SubsequenceCons(key(s[0]) == k, s, WithKey(s[1..], key, k));
      (if key(s[0]) == k then [s[0]] else []) + WithKey(s[1..], key, k)
  }

  /** `WithKey` of a sequence with one element in front. */
  lemma WithKeyCons<T>(y: T, s: seq<T>, key: T -> seq<int>, k: seq<int>)
    ensures WithKey([y] + s, key, k) == (if key(y) == k then [y] else []) + WithKey(s, key, k)
  {
    assert ([y] + s)[1..] == s;
  }

  /** Moving `x` past a `y` of another key leaves every `WithKey` as it was. */
  lemma StableStep<T>(x: T, y: T, u: seq<T>, t: seq<T>, key: T -> seq<int>, k: seq<int>)
    requires key(x) != k || key(y) != k
    requires WithKey(u, key, k) == WithKey([x] + t, key, k)
    ensures WithKey([y] + u, key, k) == WithKey([x] + ([y] + t), key, k)
  {
    WithKeyCons(y, u, key, k);
    WithKeyCons(x, t, key, k);
    WithKeyCons(x, [y] + t, key, k);
    WithKeyCons(y, t, key, k);
  }

  lemma {:induction false} InsertStable<T>(x: T, t: seq<T>, key: T -> seq<int>, k: seq<int>)
    ensures WithKey(Insert(x, t, key), key, k) == WithKey([x] + t, key, k)
  {
    if t != [] && !KeyLe(key(t[0]), key(x)) {
      InsertStable(x, t[1..], key, k);
      if key(x) == k && key(t[0]) == k {
        KeyLeReflexive(key(x));
        assert false;
      }
      assert t == [t[0]] + t[1..];
      StableStep(x, t[0], Insert(x, t[1..], key), t[1..], key, k);
    }
  }

  /**
   * The sort is stable: the elements with any one key come out in the order
   * they went in.
   */
  lemma {:induction false} SortDescStable<T>(s: seq<T>, key: T -> seq<int>, k: seq<int>)
    ensures WithKey(SortDesc(s, key), key, k) == WithKey(s, key, k)
  {
    if s != [] {
      var rest := SortDesc(s[1..], key);
      SortDescStable(s[1..], key, k);
      InsertStable(s[0], rest, key, k);
      assert ([s[0]] + rest)[1..] == rest;
    }
  }
}
