/** 128-bit identifiers as the `github.com/google/uuid` package parses and prints them. */
module Uuids {
  import opened Outcomes
  import opened Utf8

  type Uuid = s: seq<Byte> | |s| == 16 witness [0, 0, 0, 0, 0, 0, 0, 0, 0, 0, 0, 0, 0, 0, 0, 0]

  /** `uuid.UUID{}`, the zero value returned when a lookup finds nothing. */
  const Nil: Uuid := [0, 0, 0, 0, 0, 0, 0, 0, 0, 0, 0, 0, 0, 0, 0, 0]

  /** The value of one hexadecimal digit, in either case (the library's `xvalues` table). */
  function HexValue(b: Byte): (r: Option<nat>)
    ensures r.Some? ==> r.value < 16
  {
    if '0' as int <= b <= '9' as int then Some(b - '0' as int)
    else if 'a' as int <= b <= 'f' as int then Some(b - 'a' as int + 10)
    else if 'A' as int <= b <= 'F' as int then Some(b - 'A' as int + 10)
    else None
  }

  /** `xtob`: two hexadecimal digits as one byte. */
  function HexPair(hi: Byte, lo: Byte): Option<Byte> {
    match (HexValue(hi), HexValue(lo))
    case (Some(h), Some(l)) => Some(h * 16 + l)
    case _ => None
  }

  /** How many hyphens the 36-character form has before position `i`. */
  function HyphensBefore(i: nat): nat {
    if i < 9 then 0 else if i < 14 then 1 else if i < 19 then 2 else if i < 24 then 3 else 4
  }

  /** Where the two hexadecimal digits of byte `k` start in the 36-character form. */
  function Offset(k: nat): (r: nat)
    requires k < 16
    ensures r + 1 < 36 && r != 8 && r != 13 && r != 18 && r != 23
    ensures r + 1 != 8 && r + 1 != 13 && r + 1 != 18 && r + 1 != 23
  {
    2 * k + (if k < 4 then 0 else if k < 6 then 1 else if k < 8 then 2 else if k < 10 then 3 else 4)
  }

  predicate HyphensInPlace(s: seq<Byte>)
    requires |s| >= 36
  {
    s[8] == '-' as int && s[13] == '-' as int && s[18] == '-' as int && s[23] == '-' as int
  }

  /** Decodes `xxxxxxxx-xxxx-xxxx-xxxx-xxxxxxxxxxxx` from the first 36 bytes of `s`. */
  function DecodeHyphenated(s: seq<Byte>): (r: Option<Uuid>)
    requires |s| >= 36
    ensures r.Some? ==> HyphensInPlace(s)
    ensures r.Some? ==> forall k :: 0 <= k < 16 ==> HexPair(s[Offset(k)], s[Offset(k) + 1]) == Some(r.value[k])
  {
    if HyphensInPlace(s) && forall k | 0 <= k < 16 :: HexPair(s[Offset(k)], s[Offset(k) + 1]).Some? then
      var u: Uuid := seq(16, k requires 0 <= k < 16 => HexPair(s[Offset(k)], s[Offset(k) + 1]).value);
      Some(u)
    else None
  }

  /** Decodes the 32-digit form without hyphens. */
  function DecodeCompact(s: seq<Byte>): (r: Option<Uuid>)
    requires |s| == 32
    ensures r.Some? ==> forall k :: 0 <= k < 16 ==> HexPair(s[2 * k], s[2 * k + 1]) == Some(r.value[k])
  {
    if forall k | 0 <= k < 16 :: HexPair(s[2 * k], s[2 * k + 1]).Some? then
      var u: Uuid := seq(16, k requires 0 <= k < 16 => HexPair(s[2 * k], s[2 * k + 1]).value);
      Some(u)
    else None
  }

  function LowerByte(b: Byte): Byte {
    if 'A' as int <= b <= 'Z' as int then b + 32 else b
  }

  /** The first nine bytes spell `urn:uuid:` in any case. */
  predicate UrnPrefix(s: seq<Byte>)
    requires |s| >= 9
  {
    forall i | 0 <= i < 9 :: LowerByte(s[i]) == "urn:uuid:"[i] as int
  }

  /** `uuid.ParseBytes`: the four accepted forms, told apart by their length in bytes. */
  function ParseBytes(s: seq<Byte>): Option<Uuid> {
    if |s| == 36 then DecodeHyphenated(s)
    else if |s| == 36 + 9 then (if UrnPrefix(s) then DecodeHyphenated(s[9..]) else None)
    else if |s| == 36 + 2 then DecodeHyphenated(s[1..])
    else if |s| == 32 then DecodeCompact(s)
    else None
  }

  /** `uuid.Parse` on a Go string, that is on its UTF-8 bytes. */
  function Parse(s: string): (r: Option<Uuid>)
    ensures r.Some? ==> |Encode(s)| in {32, 36, 38, 45}
  {
    ParseBytes(Encode(s))
  }

  function LowerHexDigit(v: nat): (c: char)
    requires v < 16
    ensures c as int < 0x80
  {
    if v < 10 then ('0' as int + v) as char else ('a' as int + v - 10) as char
  }

  function FormatChar(u: Uuid, i: nat): (c: char)
    requires i < 36
    ensures c as int < 0x80
  {
    if i == 8 || i == 13 || i == 18 || i == 23 then '-'
    else
      var j := i - HyphensBefore(i);
      var b := u[j / 2];
      LowerHexDigit(if j % 2 == 0 then b / 16 else b % 16)
  }

  /** `UUID.String()`: the canonical lower-case 36-character form. */
  function Format(u: Uuid): (s: string)
    ensures |s| == 36 && IsAscii(s)
  {
    seq(36, i requires 0 <= i < 36 => FormatChar(u, i))
  }

  lemma HexDigitRoundTrip(v: nat)
    requires v < 16
    ensures HexValue(LowerHexDigit(v) as int) == Some(v)
  {
  }

  /** The two printed digits of byte `k` read back as that byte. */
  lemma FormatPair(u: Uuid, k: nat)
    requires k < 16
    ensures HexPair(FormatChar(u, Offset(k)) as int, FormatChar(u, Offset(k) + 1) as int) == Some(u[k])
  {
    var o := Offset(k);
    assert o - HyphensBefore(o) == 2 * k;
    assert o + 1 - HyphensBefore(o + 1) == 2 * k + 1;
    HexDigitRoundTrip(u[k] / 16);
    HexDigitRoundTrip(u[k] % 16);
  }

  /** Printing an identifier and parsing the text back gives the same identifier; the token
    * claims and the URL parameters carry identifiers in exactly this printed form. */
  lemma ParseFormat(u: Uuid)
    ensures Parse(Format(u)) == Some(u)
  {
    var s := Format(u);
    EncodeAscii(s);
    var b := Encode(s);
    assert |b| == 36;
    forall k | 0 <= k < 16
      ensures HexPair(b[Offset(k)], b[Offset(k) + 1]) == Some(u[k])
    {
      FormatPair(u, k);
      assert b[Offset(k)] == FormatChar(u, Offset(k)) as int;
      assert b[Offset(k) + 1] == FormatChar(u, Offset(k) + 1) as int;
    }
    assert HyphensInPlace(b);
    var r := DecodeHyphenated(b);
    assert r.Some?;
    assert r.value == u;
  }

  /** Different identifiers print differently. */
  lemma FormatInjective(u: Uuid, v: Uuid)
    requires Format(u) == Format(v)
    ensures u == v
  {
    ParseFormat(u);
    ParseFormat(v);
  }
}
