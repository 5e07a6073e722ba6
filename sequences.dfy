/** Order facts about sequences shared by the filtering functions. */
module Sequences {
  /** `r` is `s` with some elements left out, the rest kept in their order. */
  predicate Subsequence<T(==)>(r: seq<T>, s: seq<T>)
    decreases |s|
  {
    if s == [] then r == []
    else (|r| > 0 && r[0] == s[0] && Subsequence(r[1..], s[1..])) || Subsequence(r, s[1..])
  }

  /** Keeping or dropping the head of `s` in front of a subsequence of its tail. */
  lemma SubsequenceCons<T>(keep: bool, s: seq<T>, rest: seq<T>)
    requires s != [] && Subsequence(rest, s[1..])
    ensures Subsequence((if keep then [s[0]] else []) + rest, s)
  {
    if keep {
      assert ([s[0]] + rest)[1..] == rest;
    } else {
      assert [] + rest == rest;
    }
  }

  /** Keeping or dropping a new last element of `s` behind a subsequence of `s`. */
  lemma {:induction false} SubsequenceSnoc<T>(keep: bool, r: seq<T>, s: seq<T>, x: T)
    requires Subsequence(r, s)
    ensures Subsequence(r + (if keep then [x] else []), s + [x])
    decreases |s|
  {
    var tail := if keep then [x] else [];
    if s == [] {
      assert r == [];
      assert ([] + tail) == tail && [] + [x] == [x];
      assert Subsequence([], [x][1..]);
    } else {
      assert (s + [x])[0] == s[0] && (s + [x])[1..] == s[1..] + [x];
      if |r| > 0 && r[0] == s[0] && Subsequence(r[1..], s[1..]) {
        SubsequenceSnoc(keep, r[1..], s[1..], x);
        assert (r + tail)[1..] == r[1..] + tail;
      } else {
        SubsequenceSnoc(keep, r, s[1..], x);
      }
    }
  }

  /** A subsequence is no longer than the sequence and holds only its elements. */
  lemma {:induction false} SubsequenceBounds<T>(r: seq<T>, s: seq<T>)
    requires Subsequence(r, s)
    ensures |r| <= |s|
    ensures forall x :: x in r ==> x in s
    decreases |s|
  {
    if s != [] {
      if |r| > 0 && r[0] == s[0] && Subsequence(r[1..], s[1..]) {
        SubsequenceBounds(r[1..], s[1..]);
        assert r == [r[0]] + r[1..];
      } else {
        SubsequenceBounds(r, s[1..]);
      }
    }
  }
}
