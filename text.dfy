/** Python's `str.strip()` with no argument. */
module Text {

  /** The characters for which Python's `str.isspace()` holds, i.e. what `strip()` removes. */
  predicate IsSpace(c: char) {
    || c == ' '
    || '\U{9}' <= c <= '\U{D}'
    || '\U{1C}' <= c <= '\U{1F}'
    || c == '\U{85}' || c == '\U{A0}' || c == '\U{1680}'
    || '\U{2000}' <= c <= '\U{200A}'
    || c == '\U{2028}' || c == '\U{2029}' || c == '\U{202F}' || c == '\U{205F}' || c == '\U{3000}'
  }

  predicate AllSpace(s: string) {
    forall i :: 0 <= i < |s| ==> IsSpace(s[i])
  }

  /** Where `s.lstrip()` would cut: the first index from `k` on that is not whitespace. */
  function LeadEnd(s: string, k: nat): (n: nat)
    requires k <= |s|
    ensures k <= n <= |s|
    ensures forall j :: k <= j < n ==> IsSpace(s[j])
    ensures n == |s| || !IsSpace(s[n])
    decreases |s| - k
  {
    if k < |s| && IsSpace(s[k]) then LeadEnd(s, k + 1) else k
  }

  /** Where `s[lo..k].rstrip()` would cut: the start of the whitespace run that ends at `k`. */
  function TrailStart(s: string, lo: nat, k: nat): (n: nat)
    requires lo <= k <= |s|
    ensures lo <= n <= k
    ensures forall j :: n <= j < k ==> IsSpace(s[j])
    ensures n == lo || !IsSpace(s[n - 1])
  {
    if lo < k && IsSpace(s[k - 1]) then TrailStart(s, lo, k - 1) else k
  }

  /**
   * `s.strip()`: what is left of `s` after cutting the leading and the
   * trailing whitespace. It is a slice of `s` with only whitespace before it
   * and after it, and it neither starts nor ends with whitespace.
   */
  function Strip(s: string): (r: string)
    ensures var i := LeadEnd(s, 0);
            && i + |r| <= |s| && r == s[i..i + |r|]
            && AllSpace(s[..i]) && AllSpace(s[i + |r|..])
    ensures r == [] || (!IsSpace(r[0]) && !IsSpace(r[|r| - 1]))
  {
    var i := LeadEnd(s, 0);
    var j := TrailStart(s, i, |s|);
    assert AllSpace(s[j..]) by {
      forall k | 0 <= k < |s| - j ensures IsSpace(s[j..][k]) { assert s[j..][k] == s[j + k]; }
    }
    s[i..j]
  }

  /** Stripping twice is stripping once. */
  lemma StripIdempotent(s: string)
    ensures Strip(Strip(s)) == Strip(s)
  {
    var r := Strip(s);
    if r != [] {
      assert LeadEnd(r, 0) == 0;
      assert TrailStart(r, 0, |r|) == |r|;
      assert r[0..|r|] == r;
    }
  }

  /** A string strips to "" exactly when it is all whitespace (the empty string included). */
  lemma StripEmptyIff(s: string)
    ensures Strip(s) == [] <==> AllSpace(s)
  {
    var i := LeadEnd(s, 0);
    if Strip(s) == [] {
      assert s == s[..i] + s[i..];
    } else {
      assert !IsSpace(s[i]);
    }
  }
}
