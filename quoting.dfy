/** `requests.utils.quote(s, safe='')`: the string is encoded as UTF-8 and
    every byte outside the unreserved set of section 2.3 of RFC 3986 is
    written as `%` and two upper-case hex digits (section 2.1 of RFC 3986).
    Its partner is the receiver's decoding: percent-decoding followed by
    UTF-8 decoding gives the original string back. */
module Quoting {
  import opened Common

  type byte = x: int | 0 <= x < 256

  // ----- UTF-8 -----

  /** A continuation byte, `10xxxxxx`. */
  predicate Continuation(b: byte) {
    0x80 <= b < 0xC0
  }

  /** The UTF-8 encoding of one scalar value (section 3 of RFC 3629). */
  function Utf8(c: char): (r: seq<byte>)
    ensures 1 <= |r| <= 4
    ensures |r| == 1 <==> (c as int) < 0x80
    ensures forall i | 1 <= i < |r| :: Continuation(r[i])
  {
    var v := c as int;
    if v < 0x80 then [v]
    else if v < 0x800 then [0xC0 + v / 64, 0x80 + v % 64]
    else if v < 0x10000 then [0xE0 + v / 64 / 64, 0x80 + v / 64 % 64, 0x80 + v % 64]
    else [0xF0 + v / 64 / 64 / 64, 0x80 + v / 64 / 64 % 64, 0x80 + v / 64 % 64, 0x80 + v % 64]
  }

  function EncodeUtf8(s: string): seq<byte> {
    if s == [] then [] else Utf8(s[0]) + EncodeUtf8(s[1..])
  }

  /** A code point that is a Unicode scalar value (no surrogates). */
  predicate Scalar(v: int) {
    0 <= v < 0xD800 || 0xE000 <= v < 0x110000
  }

  /** The first character of a UTF-8 byte sequence and the number of bytes
      it takes; overlong forms, surrogates and values past U+10FFFF are
      refused. */
  function DecodeChar(bs: seq<byte>): (r: Option<(char, nat)>)
    requires bs != []
    ensures r.Some? ==> 1 <= r.value.1 <= |bs| && r.value.1 <= 4
  {
    var b0 := bs[0] as int;
    if b0 < 0x80 then Some((b0 as char, 1))
    else if 0xC0 <= b0 < 0xE0 && |bs| >= 2 && Continuation(bs[1]) then
      var v := (b0 - 0xC0) * 64 + (bs[1] as int - 0x80);
      if 0x80 <= v then Some((v as char, 2)) else None
    else if 0xE0 <= b0 < 0xF0 && |bs| >= 3 && Continuation(bs[1]) && Continuation(bs[2]) then
      var v := (b0 - 0xE0) * 4096 + (bs[1] as int - 0x80) * 64 + (bs[2] as int - 0x80);
      if 0x800 <= v && Scalar(v) then Some((v as char, 3)) else None
    else if 0xF0 <= b0 < 0xF8 && |bs| >= 4 && Continuation(bs[1]) && Continuation(bs[2]) && Continuation(bs[3]) then
      var v := (b0 - 0xF0) * 262144 + (bs[1] as int - 0x80) * 4096 + (bs[2] as int - 0x80) * 64
              + (bs[3] as int - 0x80);
      if 0x10000 <= v < 0x110000 then Some((v as char, 4)) else None
    else None
  }

  function DecodeUtf8(bs: seq<byte>): Option<string>
    decreases |bs|
  {
    if bs == [] then Some([])
    else match DecodeChar(bs)
      case None => None
      case Some((c, n)) =>
        match DecodeUtf8(bs[n..])
        case None => None
        case Some(rest) => Some([c] + rest)
  }

  /** Decoding a character's encoding, whatever follows it, gives back the
      character and the length of its encoding. */
  lemma DecodeUtf8Char(c: char, rest: seq<byte>)
    ensures DecodeChar(Utf8(c) + rest) == Some((c, |Utf8(c)|))
  {
    var v := c as int;
    if v < 0x80 {
    } else if v < 0x800 {
      DecodeTwo(c, rest);
    } else if v < 0x10000 {
      DecodeThree(c, rest);
    } else {
      DecodeFour(c, rest);
    }
  }

  lemma DecodeTwo(c: char, rest: seq<byte>)
    requires 0x80 <= c as int < 0x800
    ensures DecodeChar(Utf8(c) + rest) == Some((c, 2))
  {
    var v := c as int;
    var bs := Utf8(c) + rest;
    assert bs[0] == 0xC0 + v / 64 && bs[1] == 0x80 + v % 64;
  }

  lemma DecodeThree(c: char, rest: seq<byte>)
    requires 0x800 <= c as int < 0x10000
    ensures DecodeChar(Utf8(c) + rest) == Some((c, 3))
  {
    var v := c as int;
    var a := v / 64;
    var b := a / 64;
    assert v == b * 4096 + (a % 64) * 64 + v % 64;
    var bs := Utf8(c) + rest;
    assert bs[0] == 0xE0 + b && bs[1] == 0x80 + a % 64 && bs[2] == 0x80 + v % 64;
  }

  lemma DecodeFour(c: char, rest: seq<byte>)
    requires 0x10000 <= c as int
    ensures DecodeChar(Utf8(c) + rest) == Some((c, 4))
  {
    var v := c as int;
    var a := v / 64;
    var b := a / 64;
    var d := b / 64;
    assert v == d * 262144 + (b % 64) * 4096 + (a % 64) * 64 + v % 64;
    var bs := Utf8(c) + rest;
    assert bs[0] == 0xF0 + d && bs[1] == 0x80 + b % 64 && bs[2] == 0x80 + a % 64 && bs[3] == 0x80 + v % 64;
  }

  /** UTF-8 decoding undoes UTF-8 encoding. */
  lemma {:induction false} DecodeEncodeUtf8(s: string)
    ensures DecodeUtf8(EncodeUtf8(s)) == Some(s)
  {
    if s != [] {
      var bs := EncodeUtf8(s);
      DecodeUtf8Char(s[0], EncodeUtf8(s[1..]));
      assert bs[|Utf8(s[0])|..] == EncodeUtf8(s[1..]);
      DecodeEncodeUtf8(s[1..]);
      assert [s[0]] + s[1..] == s;
    }
  }

  // ----- percent-encoding -----

  /** `ALPHA / DIGIT / "-" / "." / "_" / "~"`, the bytes `quote` never encodes. */
  predicate Unreserved(b: int) {
    'A' as int <= b <= 'Z' as int || 'a' as int <= b <= 'z' as int || '0' as int <= b <= '9' as int
    || b == '-' as int || b == '.' as int || b == '_' as int || b == '~' as int
  }

  /** The upper-case hex digit for a value below 16. */
  function HexDigit(n: nat): (r: char)
    requires n < 16
    ensures '0' <= r <= '9' || 'A' <= r <= 'F'
    ensures IsHex(r) && HexValue(r) == n
  {
    if n < 10 then ('0' as int + n) as char else ('A' as int + n - 10) as char
  }

  /** `True` for `0-9`, `A-F` and `a-f`; decoding accepts either case. */
  predicate IsHex(c: char) {
    '0' <= c <= '9' || 'A' <= c <= 'F' || 'a' <= c <= 'f'
  }

  function HexValue(c: char): (r: nat)
    requires IsHex(c)
    ensures r < 16
  {
    if '0' <= c <= '9' then c as int - '0' as int
    else if 'A' <= c <= 'F' then c as int - 'A' as int + 10
    else c as int - 'a' as int + 10
  }

  /** One byte as it appears in a quoted string. */
  function QuoteByte(b: byte): (r: string)
    ensures Unreserved(b) ==> r == [b as char]
    ensures !Unreserved(b) ==> |r| == 3 && r[0] == '%' && IsHex(r[1]) && IsHex(r[2])
                               && HexValue(r[1]) * 16 + HexValue(r[2]) == b
  {
    if Unreserved(b) then [b as char] else ['%', HexDigit(b / 16), HexDigit(b % 16)]
  }

  /** A character a quoted string can hold: an unreserved one or `%`. */
  predicate UrlSafe(c: char) {
    Unreserved(c as int) || c == '%'
  }

  function QuoteBytes(bs: seq<byte>): (r: string)
    ensures forall i | 0 <= i < |r| :: UrlSafe(r[i])
    ensures |r| >= |bs|
  {
    if bs == [] then "" else QuoteByte(bs[0]) + QuoteBytes(bs[1..])
  }

  /** `requests.utils.quote(s, safe='')` */
  function Quote(s: string): (r: string)
    ensures forall i | 0 <= i < |r| :: UrlSafe(r[i])
    ensures '&' !in r && '=' !in r && '?' !in r && '#' !in r
  {
    QuoteBytes(EncodeUtf8(s))
  }

  /** Percent-decoding: `%XX` gives the byte XX, an ASCII character its own
      byte; a stray `%` or a character past ASCII is refused. */
  function UnquoteBytes(s: string): Option<seq<byte>>
    decreases |s|
  {
    if s == [] then Some([])
    else if s[0] == '%' then
      if |s| >= 3 && IsHex(s[1]) && IsHex(s[2]) then
        match UnquoteBytes(s[3..])
        case None => None
        case Some(rest) => Some([HexValue(s[1]) * 16 + HexValue(s[2])] + rest)
      else None
    else if (s[0] as int) < 128 then
      match UnquoteBytes(s[1..])
      case None => None
      case Some(rest) => Some([s[0] as int] + rest)
    else None
  }

  /** The receiver's decoding of a quoted value. */
  function Unquote(s: string): Option<string> {
    match UnquoteBytes(s)
    case None => None
    case Some(bs) => DecodeUtf8(bs)
  }

  lemma {:induction false} UnquoteQuoteBytes(bs: seq<byte>)
    ensures UnquoteBytes(QuoteBytes(bs)) == Some(bs)
  {
    if bs != [] {
      var head := QuoteByte(bs[0]);
      var tail := QuoteBytes(bs[1..]);
      UnquoteQuoteBytes(bs[1..]);
      if Unreserved(bs[0]) {
        assert (head + tail)[1..] == tail;
      } else {
        assert (head + tail)[3..] == tail;
      }
      assert [bs[0]] + bs[1..] == bs;
    }
  }

  /** Decoding a quoted string gives the original string back, so `quote` is
      injective and loses nothing. */
  lemma UnquoteQuote(s: string)
    ensures Unquote(Quote(s)) == Some(s)
  {
    UnquoteQuoteBytes(EncodeUtf8(s));
    DecodeEncodeUtf8(s);
  }

  /** A string of unreserved ASCII characters is left as it is. */
  lemma {:induction false} QuoteUnreserved(s: string)
    requires forall i | 0 <= i < |s| :: (s[i] as int) < 0x80 && Unreserved(s[i] as int)
    ensures Quote(s) == s
  {
    if s != [] {
      QuoteUnreserved(s[1..]);
      assert EncodeUtf8(s)[1..] == EncodeUtf8(s[1..]);
      assert [s[0]] + s[1..] == s;
    }
  }
}
