/**
 * Documents as the Python code sees them: dictionaries from field names to
 * values. Only the kinds of value the ideas board stores are modelled.
 */
module Documents {
  import opened Wrappers
  import opened ObjectIds

  datatype Value =
    | VNull             // None
    | VInt(i: int)      // int
    | VStr(s: string)   // str
    | VTime(t: int)     // datetime, as microseconds since 1970-01-01 UTC
    | VIso(t: int)      // the str that datetime.isoformat() renders for the instant t
    | VOid(oid: Oid)    // bson ObjectId

  type Doc = map<string, Value>

  function DigitChar(d: nat): char
    requires d < 10
  {
    ('0' as int + d) as char
  }

  /** Decimal digits of a natural number. */
  function DigitsText(n: nat): string
    decreases n
  {
    if n < 10 then [DigitChar(n)] else DigitsText(n / 10) + [DigitChar(n % 10)]
  }

  /** `str(i)` for an int. */
  function IntText(i: int): string {
    if i < 0 then "-" + DigitsText(-i) else DigitsText(i)
  }

  /**
   * `str(v)`. For an ObjectId it is the canonical 24-digit text. Calendar
   * rendering of datetimes is not modelled: their decimal instant stands in.
   */
  function Str(v: Value): string {
    match v
    case VNull => "None"
    case VInt(i) => IntText(i)
    case VStr(s) => s
    case VTime(t) => IntText(t)
    case VIso(t) => IntText(t)
    case VOid(o) => o
  }

  /** A Python `Optional[str]` as a stored value. */
  function OptionalText(s: Option<string>): (v: Value)
    ensures s.None? <==> v == VNull
    ensures s.Some? ==> v == VStr(s.value)
  {
    match s
    case None => VNull
    case Some(x) => VStr(x)
  }

  /**
   * `d["id"] = str(d.pop("_id"))` on a copy of `d`, the step shared by the
   * three serializers of the code base.
   */
  function RenameId(d: Doc): (r: Doc)
    requires "_id" in d
    ensures "_id" !in r && "id" in r && r["id"] == VStr(Str(d["_id"]))
    ensures forall k :: k in r <==> k == "id" || (k in d && k != "_id")
    ensures r.Keys == d.Keys - {"_id"} + {"id"}
    ensures forall k :: k in d && k != "_id" && k != "id" ==> r[k] == d[k]
  {
    (d - {"_id"})["id" := VStr(Str(d["_id"]))]
  }

  /** The number a sort key reads from a value; other kinds never occur under a sort field. */
  function Num(v: Value): int {
    match v
    case VInt(i) => i
    case VTime(t) => t
    case _ => 0
  }

  /** `d.get(k, default)` for a numeric field. */
  function GetNum(d: Doc, k: string, default: int): (n: int)
    ensures k !in d ==> n == default
    ensures k in d && d[k].VInt? ==> n == d[k].i
    ensures k in d && d[k].VTime? ==> n == d[k].t
  {
    if k in d then Num(d[k]) else default
  }

  // Field readers used when a pydantic model is built from a dictionary.
  // Each yields None when the field makes validation fail.

  /** Is `v` a Python str: plain text, or the ISO text of an instant? */
  predicate IsText(v: Value) {
    v.VStr? || v.VIso?
  }

  /** `str` validation of a value: any Python str is accepted as itself. */
  function TextValue(v: Value): (r: Option<string>)
    ensures r.Some? <==> IsText(v)
    ensures r.Some? ==> r.value == Str(v)
  {
    match v
    case VStr(s) => Some(s)
    case VIso(_) => Some(Str(v))
    case _ => None
  }

  function Pow10(k: nat): nat {
    if k == 0 then 1 else 10 * Pow10(k - 1)
  }

  lemma {:induction false} DigitsTextLength(n: nat, k: nat)
    requires 1 <= k && n < Pow10(k)
    ensures |DigitsText(n)| <= k
    decreases k
  {
    if n >= 10 {
      assert n / 10 < Pow10(k - 1);
      assert 1 <= k - 1;
      DigitsTextLength(n / 10, k - 1);
    }
  }

  /**
   * The text that stands in for the ISO rendering of any datetime (years 1
   * to 9999) has 1 to 19 characters. The real rendering has 19 to 32. Both
   * therefore meet every length bound the schemas declare (at least 1, at
   * most 100, 200 or 2000) alike.
   */
  lemma IsoTextLength(t: int)
    requires -100_000_000_000_000_000 < t < 1_000_000_000_000_000_000
    ensures 1 <= |Str(VIso(t))| <= 19
  {
    assert Pow10(18) == 1_000_000_000_000_000_000 by {
      assert Pow10(1) == 10 && Pow10(2) == 100 && Pow10(3) == 1000;
      assert Pow10(6) == 1_000_000 && Pow10(9) == 1_000_000_000;
      assert Pow10(12) == 1_000_000_000_000 && Pow10(15) == 1_000_000_000_000_000;
    }
    if t < 0 {
      DigitsTextLength(-t, 18);
    } else {
      DigitsTextLength(t, 18);
    }
  }

  /** A required `str` field. */
  function RequiredText(d: Doc, k: string): (r: Option<string>)
    ensures r.Some? <==> k in d && IsText(d[k])
    ensures r.Some? ==> r.value == Str(d[k])
  {
    if k in d then TextValue(d[k]) else None
  }

  /** An `Optional[str] = None` field: absent or None reads as None. */
  function OptionalTextField(d: Doc, k: string): (r: Option<Option<string>>)
    ensures r.Some? <==> k !in d || d[k].VNull? || IsText(d[k])
    ensures k !in d || d[k].VNull? ==> r == Some(None)
    ensures k in d && IsText(d[k]) ==> r == Some(Some(Str(d[k])))
  {
    if k !in d || d[k].VNull? then Some(None)
    else if IsText(d[k]) then Some(TextValue(d[k]))
    else None
  }

  /**
   * What BSON keeps of a datetime: the instant truncated to whole
   * milliseconds (towards the past), since BSON stores milliseconds.
   */
  function BsonTime(t: int): (r: int)
    ensures r % 1000 == 0 && r <= t < r + 1000
  {
    t - t % 1000
  }

  /** A value as the driver stores it: datetimes lose their microseconds. */
  function AsStored(v: Value): (w: Value)
    ensures v.VTime? ==> w == VTime(BsonTime(v.t))
    ensures !v.VTime? ==> w == v
  {
    if v.VTime? then VTime(BsonTime(v.t)) else v
  }

  /** A document as the driver stores it, field by field. */
  function StoredDoc(d: Doc): (r: Doc)
    ensures r.Keys == d.Keys
    ensures forall k :: k in d ==> r[k] == AsStored(d[k])
  {
    map k | k in d :: AsStored(d[k])
  }

  predicate AllDigits(s: string) {
    forall i :: 0 <= i < |s| ==> '0' <= s[i] <= '9'
  }

  /** The text an `int` field accepts in place of a number: a sign, then one or more ASCII digits. */
  predicate DecimalText(s: string) {
    || (|s| >= 1 && AllDigits(s))
    || (|s| >= 2 && (s[0] == '+' || s[0] == '-') && AllDigits(s[1..]))
  }

  /** The number written by a string of decimal digits. */
  function DigitsValue(s: string): nat
    requires AllDigits(s)
    decreases |s|
  {
    if s == [] then 0 else DigitsValue(s[..|s| - 1]) * 10 + (s[|s| - 1] as int - '0' as int)
  }

  /** `int(s)` for a decimal literal. */
  function DecimalValue(s: string): (r: int)
    requires DecimalText(s)
    ensures s[0] != '-' ==> r >= 0
    ensures s[0] == '-' ==> r <= 0
  {
    if s[0] == '-' then -(DigitsValue(s[1..]) as int)
    else if s[0] == '+' then DigitsValue(s[1..])
    else DigitsValue(s)
  }

  lemma {:induction false} DigitsRoundTrip(n: nat)
    ensures AllDigits(DigitsText(n)) && DigitsValue(DigitsText(n)) == n
  {
    if n >= 10 {
      DigitsRoundTrip(n / 10);
      var s := DigitsText(n);
      assert s[..|s| - 1] == DigitsText(n / 10);
    }
  }

  /** Lax validation reads `str(i)` back as `i`. */
  lemma DecimalOfIntText(i: int)
    ensures DecimalText(IntText(i)) && DecimalValue(IntText(i)) == i
  {
    if i < 0 {
      DigitsRoundTrip(-i);
      assert IntText(i)[1..] == DigitsText(-i);
    } else {
      DigitsRoundTrip(i);
    }
  }

  /** `int` lax validation of a value: an int, or a string holding a decimal literal. */
  function IntValue(v: Value): (r: Option<int>)
    ensures v.VInt? ==> r == Some(v.i)
    ensures v.VStr? && DecimalText(v.s) ==> r == Some(DecimalValue(v.s))
    ensures r.Some? <==> v.VInt? || (v.VStr? && DecimalText(v.s))
  {
    match v
    case VInt(i) => Some(i)
    case VStr(s) => if DecimalText(s) then Some(DecimalValue(s)) else None
    case _ => None
  }

  /**
   * The instant a Unix timestamp names: seconds when its magnitude is at
   * most 2e10, milliseconds beyond that.
   */
  function UnixInstant(n: int): (t: int)
    ensures -20_000_000_000 <= n <= 20_000_000_000 ==> t == n * 1_000_000
    ensures (n < -20_000_000_000 || n > 20_000_000_000) ==> t == n * 1000
  {
    if -20_000_000_000 <= n <= 20_000_000_000 then n * 1_000_000 else n * 1000
  }

  /**
   * Unix timestamps are supported from 1600-01-01 to 9999-12-31T23:59:59,
   * checked on the whole seconds of the instant they name.
   */
  predicate UnixInRange(n: int) {
    -11_676_096_000 <= UnixInstant(n) / 1_000_000 <= 253_402_300_799
  }

  /** `datetime` lax validation of a value: a datetime, its ISO text, or a supported Unix timestamp. */
  function TimeValue(v: Value): (r: Option<int>)
    ensures v.VTime? ==> r == Some(v.t)
    ensures v.VIso? ==> r == Some(v.t)
    ensures v.VInt? && UnixInRange(v.i) ==> r == Some(UnixInstant(v.i))
    ensures r.Some? <==> v.VTime? || v.VIso? || (v.VInt? && UnixInRange(v.i))
  {
    match v
    case VTime(t) => Some(t)
    case VIso(t) => Some(t)
    case VInt(n) => if UnixInRange(n) then Some(UnixInstant(n)) else None
    case _ => None
  }

  /** Seconds before 1600 and milliseconds after 9999 are refused; the extreme supported seconds are not. */
  lemma UnixRangeEdges()
    ensures !UnixInRange(-20_000_000_000) && !UnixInRange(1_000_000_000_000_000)
    ensures UnixInRange(-11_676_096_000) && !UnixInRange(-11_676_096_001)
    ensures UnixInRange(253_402_300_799_999) && !UnixInRange(253_402_300_800_000)
  {
  }

  /** An `int` field with a default. */
  function IntFieldOr(d: Doc, k: string, default: int): (r: Option<int>)
    ensures r.Some? <==> k !in d || d[k].VInt? || (d[k].VStr? && DecimalText(d[k].s))
    ensures k !in d ==> r == Some(default)
    ensures k in d && d[k].VInt? ==> r == Some(d[k].i)
    ensures k in d && d[k].VStr? && DecimalText(d[k].s) ==> r == Some(DecimalValue(d[k].s))
  {
    if k !in d then Some(default) else IntValue(d[k])
  }

  /** A required `datetime` field. */
  function RequiredTime(d: Doc, k: string): (r: Option<int>)
    ensures r.Some? <==> k in d && (d[k].VTime? || d[k].VIso? || (d[k].VInt? && UnixInRange(d[k].i)))
    ensures r.Some? && (d[k].VTime? || d[k].VIso?) ==> r.value == d[k].t
    ensures r.Some? && d[k].VInt? ==> r.value == UnixInstant(d[k].i)
  {
    if k in d then TimeValue(d[k]) else None
  }
}
