/**
 * The store's identifiers. An ObjectId is written as 24 hexadecimal digits;
 * parsing accepts either case and the canonical text (what `str()` gives) is
 * lower case. Only this textual face of bson's ObjectId is modelled.
 */
module ObjectIds {
  import opened Wrappers

  const OidLength := 24

  predicate IsHexDigit(c: char) {
    '0' <= c <= '9' || 'a' <= c <= 'f' || 'A' <= c <= 'F'
  }

  predicate IsLowerHexDigit(c: char) {
    '0' <= c <= '9' || 'a' <= c <= 'f'
  }

  /** The canonical text of an ObjectId. */
  predicate IsOidText(s: string) {
    |s| == OidLength && forall i :: 0 <= i < |s| ==> IsLowerHexDigit(s[i])
  }

  /** An ObjectId, identified with its canonical text: `str(oid)` is the value itself. */
  type Oid = s: string | IsOidText(s) witness "000000000000000000000000"

  /** What `ObjectId(s)` accepts for a string `s`. */
  predicate IsValidOid(s: string) {
    |s| == OidLength && forall i :: 0 <= i < |s| ==> IsHexDigit(s[i])
  }

  function LowerHexDigit(c: char): (d: char)
    requires IsHexDigit(c)
    ensures IsLowerHexDigit(d)
    ensures IsLowerHexDigit(c) ==> d == c
    ensures 'A' <= c <= 'F' ==> d as int == c as int + 32
  {
    if 'A' <= c <= 'F' then (c as int - 'A' as int + 'a' as int) as char else c
  }

  function LowerHex(s: string): (r: string)
    requires forall i :: 0 <= i < |s| ==> IsHexDigit(s[i])
    ensures |r| == |s|
    ensures forall i :: 0 <= i < |s| ==> r[i] == LowerHexDigit(s[i])
  {
    seq(|s|, i requires 0 <= i < |s| => LowerHexDigit(s[i]))
  }

  /** `ObjectId(s)`: Some(id) for a well-formed text, None where bson raises InvalidId. */
  function ParseOid(s: string): (r: Option<Oid>)
    ensures r.Some? <==> IsValidOid(s)
    ensures r.Some? ==> r.value == LowerHex(s)
  {
    if IsValidOid(s) then Some(LowerHex(s)) else None
  }

  /** Parsing the text of an id gives that id back. */
  lemma ParseOidOfText(o: Oid)
    ensures ParseOid(o) == Some(o)
  {
    assert LowerHex(o) == o;
  }

  /** Two texts name the same id exactly when they agree up to the case of the letters. */
  lemma ParseOidCaseInsensitive(s: string, t: string)
    requires IsValidOid(s) && IsValidOid(t)
    ensures ParseOid(s) == ParseOid(t) <==> LowerHex(s) == LowerHex(t)
  {
  }

  /** An upper-case text parses, yet differs from the canonical text of the id it names. */
  lemma UpperCaseIdIsNotItsText()
    ensures var s := "00000000000000000000000A";
            ParseOid(s).Some? && ParseOid(s).value != s
  {
    var s := "00000000000000000000000A";
    assert IsValidOid(s);
    assert LowerHex(s)[23] == 'a';
  }
}
