/**
 * MongoDB ObjectIds at the text boundary. An ObjectId is a 12-byte value,
 * here its number. `ObjectId(text)` accepts exactly 24 hexadecimal digits
 * (of either case) and throws otherwise; `toString()` prints the value as 24
 * lower-case hexadecimal digits.
 */
module ObjectIds {
  import opened Values

  /** The numeric value of an ObjectId. */
  type Oid = nat

  const OidHexLength: nat := 24

  function Pow16(k: nat): (p: nat)
    ensures p >= 1
  {
    if k == 0 then 1 else 16 * Pow16(k - 1)
  }

  /** The number of distinct 12-byte ObjectIds. */
  const OidSpace: nat := Pow16(OidHexLength)

  predicate IsHexDigit(c: char) {
    '0' <= c <= '9' || 'a' <= c <= 'f' || 'A' <= c <= 'F'
  }

  predicate AllHex(s: string) {
    forall i :: 0 <= i < |s| ==> IsHexDigit(s[i])
  }

  function HexDigitValue(c: char): (v: nat)
    requires IsHexDigit(c)
    ensures v < 16
  {
    if '0' <= c <= '9' then c as int - '0' as int
    else if 'a' <= c <= 'f' then c as int - 'a' as int + 10
    else c as int - 'A' as int + 10
  }

  /** The lower-case digit for `v`. */
  function HexDigitChar(v: nat): (c: char)
    requires v < 16
    ensures IsHexDigit(c) && HexDigitValue(c) == v
  {
    if v < 10 then ('0' as int + v) as char else ('a' as int + v - 10) as char
  }

  /** The validity test of `ObjectId(text)`: it throws on any other text. */
  predicate IsOidText(s: string) {
    |s| == OidHexLength && AllHex(s)
  }

  /** The number denoted by hexadecimal digits, most significant first. */
  function HexValue(s: string): (v: nat)
    requires AllHex(s)
    ensures v < Pow16(|s|)
  {
    if |s| == 0 then 0
    else
      var init := s[..|s| - 1];
      assert AllHex(init) by { assert forall i :: 0 <= i < |init| ==> init[i] == s[i]; }
      HexValue(init) * 16 + HexDigitValue(s[|s| - 1])
  }

  /** `ObjectId(text)`: the value, or `None` where the constructor throws. */
  function ParseOid(s: string): (r: Option<Oid>)
    ensures r.Some? <==> IsOidText(s)
    ensures r.Some? ==> r.value < OidSpace
  {
    if IsOidText(s) then Some(HexValue(s)) else None
  }

  /** The low `width` hexadecimal digits of `n`, lower case, zero-padded. */
  function HexText(n: nat, width: nat): (s: string)
    ensures |s| == width && AllHex(s)
  {
    if width == 0 then [] else HexText(n / 16, width - 1) + [HexDigitChar(n % 16)]
  }

  /** `oid.toString()`. */
  function OidText(o: Oid): (s: string)
    ensures IsOidText(s)
  {
    HexText(o, OidHexLength)
  }

  /** Reading back the digits printed for `n` gives `n` when it fits in `width` digits. */
  lemma {:induction false} HexRoundTrip(n: nat, width: nat)
    requires n < Pow16(width)
    ensures HexValue(HexText(n, width)) == n
  {
    if width > 0 {
      var s := HexText(n, width);
      assert s[..|s| - 1] == HexText(n / 16, width - 1);
      assert n / 16 < Pow16(width - 1);
      HexRoundTrip(n / 16, width - 1);
    }
  }

  /** `ObjectId(oid.toString())` is `oid` again, for every 12-byte value. */
  lemma OidTextRoundTrip(o: Oid)
    requires o < OidSpace
    ensures ParseOid(OidText(o)) == Some(o)
  {
    HexRoundTrip(o, OidHexLength);
  }

  /** Distinct ObjectIds print differently. */
  lemma OidTextInjective(a: Oid, b: Oid)
    requires a < OidSpace && b < OidSpace
    requires OidText(a) == OidText(b)
    ensures a == b
  {
    OidTextRoundTrip(a);
    OidTextRoundTrip(b);
  }
}
