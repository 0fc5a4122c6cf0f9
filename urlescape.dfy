/** `url.QueryEscape` and `url.QueryUnescape` of Go's `net/url`, in query-component mode:
  * ASCII letters, digits and `-_.~` are kept, a space becomes `+`, and every other byte of
  * the UTF-8 encoding becomes `%` followed by two upper-case hexadecimal digits. */
module UrlEscape {
  import opened Outcomes
  import opened Utf8

  predicate Unreserved(b: Byte) {
    ('a' as int <= b <= 'z' as int) || ('A' as int <= b <= 'Z' as int) || ('0' as int <= b <= '9' as int)
    || b == '-' as int || b == '_' as int || b == '.' as int || b == '~' as int
  }

  function UpperHexDigit(v: nat): (c: char)
    requires v < 16
  {
    if v < 10 then ('0' as int + v) as char else ('A' as int + v - 10) as char
  }

  function EscapeByte(b: Byte): (r: string)
    ensures |r| == 1 || |r| == 3
  {
    if Unreserved(b) then [b as char]
    else if b == ' ' as int then "+"
    else ['%', UpperHexDigit(b / 16), UpperHexDigit(b % 16)]
  }

  function EscapeBytes(bs: seq<Byte>): string {
    if bs == [] then [] else EscapeByte(bs[0]) + EscapeBytes(bs[1..])
  }

  /** `url.QueryEscape(s)`. */
  function QueryEscape(s: string): string {
    EscapeBytes(Encode(s))
  }

  /** The characters an escaped text is made of: the unreserved ones, `+` and `%`. */
  predicate SafeChar(c: char) {
    ('a' <= c <= 'z') || ('A' <= c <= 'Z') || ('0' <= c <= '9')
    || c == '-' || c == '_' || c == '.' || c == '~' || c == '+' || c == '%'
  }

  /** An escaped text holds no space, `&`, `=`, `?` or `#`, so it cannot end the query
    * parameter it is placed in nor start another one. */
  lemma {:induction false} EscapedIsSafe(bs: seq<Byte>)
    ensures forall i :: 0 <= i < |EscapeBytes(bs)| ==> SafeChar(EscapeBytes(bs)[i])
  {
    if bs != [] {
      EscapedIsSafe(bs[1..]);
      var e := EscapeBytes(bs);
      assert e == EscapeByte(bs[0]) + EscapeBytes(bs[1..]);
    }
  }

  function HexDigitValue(c: char): Option<nat> {
    if '0' <= c <= '9' then Some(c as int - '0' as int)
    else if 'a' <= c <= 'f' then Some(c as int - 'a' as int + 10)
    else if 'A' <= c <= 'F' then Some(c as int - 'A' as int + 10)
    else None
  }

  /** `url.QueryUnescape(s)` on its bytes: `%XX` decodes one byte and fails when the two
    * hexadecimal digits are missing, `+` decodes to a space, and any other character stands
    * for its own UTF-8 bytes. */
  function UnescapeBytes(s: string): Option<seq<Byte>>
    decreases |s|
  {
    if s == [] then Some([])
    else if s[0] == '%' then
      if |s| < 3 then None
      else match (HexDigitValue(s[1]), HexDigitValue(s[2]))
        case (Some(h), Some(l)) =>
          (match UnescapeBytes(s[3..])
           case Some(rest) => Some([h * 16 + l] + rest)
           case None => None)
        case _ => None
    else if s[0] == '+' then
      match UnescapeBytes(s[1..])
      case Some(rest) => Some([' ' as int] + rest)
      case None => None
    else
      match UnescapeBytes(s[1..])
      case Some(rest) => Some(EncodeChar(s[0]) + rest)
      case None => None
  }

  /** Decoding an escaped text gives back exactly the bytes that were escaped. */
  lemma {:induction false} UnescapeEscape(bs: seq<Byte>)
    ensures UnescapeBytes(EscapeBytes(bs)) == Some(bs)
  {
    if bs != [] {
      var b := bs[0];
      var head, tail := EscapeByte(b), EscapeBytes(bs[1..]);
      assert EscapeBytes(bs) == head + tail;
      UnescapeEscape(bs[1..]);
      if Unreserved(b) {
        assert (head + tail)[0] == b as char && (head + tail)[1..] == tail;
      } else if b == ' ' as int {
        assert (head + tail)[0] == '+' && (head + tail)[1..] == tail;
      } else {
        assert (head + tail)[3..] == tail;
        assert HexDigitValue(UpperHexDigit(b / 16)) == Some(b / 16);
        assert HexDigitValue(UpperHexDigit(b % 16)) == Some(b % 16);
      }
      assert [b] + bs[1..] == bs;
    }
  }

  /** `url.QueryUnescape(url.QueryEscape(s))` gives back the bytes of `s`. */
  lemma QueryRoundTrip(s: string)
    ensures UnescapeBytes(QueryEscape(s)) == Some(Encode(s))
  {
    UnescapeEscape(Encode(s));
  }
}
