/**
  Percent-encoding of a URI component, as ECMAScript's built-in `encodeURIComponent`
  performs it (ECMA-262, section "encodeURIComponent (uriComponent)"), and its inverse
  `decodeURIComponent`. A Dafny `char` is a Unicode scalar value, so a string here never
  holds a lone surrogate and encoding never raises.

  Encoding leaves the letters, the digits and `- _ . ! ~ * ' ( )` as they are and replaces
  every other character by the UTF-8 octets of its code point, each written `%XY` with
  upper-case hexadecimal digits.
 */
module UriComponent {
  import opened Wrappers

  type Byte = b: int | 0 <= b < 256

  /** The characters `encodeURIComponent` copies unchanged. */
  predicate Unescaped(c: char) {
    || 'A' <= c <= 'Z' || 'a' <= c <= 'z' || '0' <= c <= '9'
    || c == '-' || c == '_' || c == '.' || c == '!' || c == '~'
    || c == '*' || c == '\'' || c == '(' || c == ')'
  }

  /** The code points that are Unicode scalar values, i.e. the values of `char`. */
  predicate IsScalar(n: int) {
    0 <= n < 0xD800 || 0xE000 <= n < 0x11_0000
  }

  const HexDigits := "0123456789ABCDEF"

  function HexDigit(d: nat): (c: char)
    requires d < 16
    ensures Unescaped(c)
  {
    HexDigits[d]
  }

  /** The value of a hexadecimal digit of either case. */
  function HexValue(c: char): (r: Option<nat>)
    ensures r.Some? ==> r.value < 16
  {
    if '0' <= c <= '9' then Some(c as int - '0' as int)
    else if 'A' <= c <= 'F' then Some(c as int - 'A' as int + 10)
    else if 'a' <= c <= 'f' then Some(c as int - 'a' as int + 10)
    else None
  }

  /** The UTF-8 octets of one code point. */
  function Utf8(c: char): (bs: seq<Byte>)
    ensures 1 <= |bs| <= 4
  {
    var n := c as int;
    if n < 0x80 then [n]
    else if n < 0x800 then [0xC0 + n / 0x40, 0x80 + n % 0x40]
    else if n < 0x1_0000 then [0xE0 + n / 0x1000, 0x80 + n / 0x40 % 0x40, 0x80 + n % 0x40]
    else [0xF0 + n / 0x4_0000, 0x80 + n / 0x1000 % 0x40, 0x80 + n / 0x40 % 0x40, 0x80 + n % 0x40]
  }

  function EscapeByte(b: Byte): string {
    ['%', HexDigit(b / 16), HexDigit(b % 16)]
  }

  function EscapeBytes(bs: seq<Byte>): (r: string)
    ensures |r| == 3 * |bs|
    ensures forall c | c in r :: Unescaped(c) || c == '%'
  {
    if bs == [] then [] else EscapeByte(bs[0]) + EscapeBytes(bs[1..])
  }

  function EncodeChar(c: char): string {
    if Unescaped(c) then [c] else EscapeBytes(Utf8(c))
  }

  /** `encodeURIComponent(s)`: the result holds only unescaped characters and `%`, so it
      can stand as one query-parameter value (no `&`, `=`, `#`, `?`, quote or space). */
  function Encode(s: string): (r: string)
    ensures |r| >= |s|
    ensures forall c | c in r :: Unescaped(c) || c == '%'
  {
    if s == [] then [] else EncodeChar(s[0]) + Encode(s[1..])
  }

  /** Reads one escape `%XY` at the start of `t`. */
  function ReadEscape(t: string): Option<Byte> {
    if |t| < 3 || t[0] != '%' then None
    else match (HexValue(t[1]), HexValue(t[2]))
      case (Some(hi), Some(lo)) => Some(hi * 16 + lo)
      case _ => None
  }

  /** Reads `n` consecutive escapes at the start of `t`. */
  function ReadEscapes(t: string, n: nat): (r: Option<seq<Byte>>)
    ensures r.Some? ==> |r.value| == n && 3 * n <= |t|
  {
    if n == 0 then Some([])
    else match ReadEscape(t)
      case None => None
      case Some(b) =>
        match ReadEscapes(t[3..], n - 1)
        case None => None
        case Some(bs) => Some([b] + bs)
  }

  /** The number of octets announced by a leading octet, 0 when it cannot lead. */
  function SequenceLength(b: Byte): nat {
    if b < 0x80 then 1
    else if b < 0xC0 then 0
    else if b < 0xE0 then 2
    else if b < 0xF0 then 3
    else if b < 0xF8 then 4
    else 0
  }

  /** The code point whose bits the octets carry, before any validity check. */
  function CodePointBits(bs: seq<Byte>): int
    requires 1 <= |bs| <= 4
  {
    var b: seq<int> := bs;
    if |b| == 1 then b[0]
    else if |b| == 2 then (b[0] - 0xC0) * 0x40 + (b[1] - 0x80)
    else if |b| == 3 then (b[0] - 0xE0) * 0x1000 + (b[1] - 0x80) * 0x40 + (b[2] - 0x80)
    else (b[0] - 0xF0) * 0x4_0000 + (b[1] - 0x80) * 0x1000 + (b[2] - 0x80) * 0x40 + (b[3] - 0x80)
  }

  /** The character the octets encode, when they are the UTF-8 encoding of one
      (overlong forms, surrogates and values past U+10FFFF are refused). */
  function DecodeOctets(bs: seq<Byte>): (r: Option<char>)
    requires 1 <= |bs| <= 4
    ensures r.Some? ==> Utf8(r.value) == bs
  {
    var n := CodePointBits(bs);
    if IsScalar(n) && Utf8(n as char) == bs then Some(n as char) else None
  }

  /** Decodes the escapes of one character at the start of `t` (which starts with `%`):
      the character and the number of characters consumed. */
  function DecodeEscapedChar(t: string): (r: Option<(char, nat)>)
    ensures r.Some? ==> 3 <= r.value.1 <= |t|
  {
    match ReadEscape(t)
    case None => None
    case Some(lead) =>
      var k := SequenceLength(lead);
      if k == 0 then None
      else match ReadEscapes(t, k)
        case None => None
        case Some(bs) =>
          match DecodeOctets(bs)
          case None => None
          case Some(c) => Some((c, 3 * k))
  }

  /** `decodeURIComponent(t)`; `None` where it raises a URIError. */
  function Decode(t: string): Option<string>
    decreases |t|
  {
    if t == [] then Some([])
    else if t[0] != '%' then
      match Decode(t[1..])
      case None => None
      case Some(rest) => Some([t[0]] + rest)
    else
      match DecodeEscapedChar(t)
      case None => None
      case Some((c, k)) =>
        match Decode(t[k..])
        case None => None
        case Some(rest) => Some([c] + rest)
  }

  lemma HexDigitValue(d: nat)
    requires d < 16
    ensures HexValue(HexDigit(d)) == Some(d)
  {
  }

  lemma ReadEscapeByte(b: Byte, rest: string)
    ensures ReadEscape(EscapeByte(b) + rest) == Some(b)
  {
    HexDigitValue(b / 16);
    HexDigitValue(b % 16);
  }

  lemma {:induction false} ReadEscapeBytes(bs: seq<Byte>, rest: string)
    ensures ReadEscapes(EscapeBytes(bs) + rest, |bs|) == Some(bs)
  {
    if bs != [] {
      var tail := EscapeBytes(bs[1..]) + rest;
      var t := EscapeByte(bs[0]) + tail;
      assert EscapeBytes(bs) + rest == t;
      ReadEscapeByte(bs[0], tail);
      assert t[3..] == tail;
      ReadEscapeBytes(bs[1..], rest);
      assert ReadEscapes(t, |bs|) == Some([bs[0]] + bs[1..]);
      assert [bs[0]] + bs[1..] == bs;
    }
  }

  /** The leading octet announces the length of the encoding, and the octets carry the
      code point back. */
  lemma Utf8Decodes(c: char)
    ensures SequenceLength(Utf8(c)[0]) == |Utf8(c)|
    ensures CodePointBits(Utf8(c)) == c as int
  {
    var n := c as int;
    if n >= 0x1_0000 {
      var a, b, d, e := n / 0x4_0000, n / 0x1000 % 0x40, n / 0x40 % 0x40, n % 0x40;
      assert n / 0x1000 == a * 0x40 + b;
      assert n / 0x40 == (n / 0x1000) * 0x40 + d;
      assert n == (n / 0x40) * 0x40 + e;
    } else if n >= 0x800 {
      var a, b, d := n / 0x1000, n / 0x40 % 0x40, n % 0x40;
      assert n / 0x40 == a * 0x40 + b;
      assert n == (n / 0x40) * 0x40 + d;
    }
  }

  lemma DecodeOctetsOfUtf8(c: char)
    ensures DecodeOctets(Utf8(c)) == Some(c)
  {
    Utf8Decodes(c);
  }

  /** The escapes of one character's octets decode to that character. */
  lemma DecodeEscapesOfChar(c: char, rest: string)
    ensures DecodeEscapedChar(EscapeBytes(Utf8(c)) + rest) == Some((c, 3 * |Utf8(c)|))
  {
    var bs := Utf8(c);
    var tail := EscapeBytes(bs[1..]) + rest;
    var t := EscapeByte(bs[0]) + tail;
    assert EscapeBytes(bs) + rest == t;
    ReadEscapeByte(bs[0], tail);
    Utf8Decodes(c);
    ReadEscapeBytes(bs, rest);
    DecodeOctetsOfUtf8(c);
  }

  /** Decoding reads one encoded character back and continues with what follows it. */
  lemma DecodeEncodedChar(c: char, rest: string)
    ensures Decode(EncodeChar(c) + rest) ==
      match Decode(rest) case None => None case Some(r) => Some([c] + r)
  {
    var t := EncodeChar(c) + rest;
    if Unescaped(c) {
      assert t[0] == c && t[1..] == rest;
    } else {
      var bs := Utf8(c);
      assert EscapeBytes(bs) == EscapeByte(bs[0]) + EscapeBytes(bs[1..]);
      assert t[0] == '%';
      DecodeEscapesOfChar(c, rest);
      assert t[3 * |bs|..] == rest;
    }
  }

  /** Round trip: `decodeURIComponent(encodeURIComponent(s)) == s`. */
  lemma {:induction false} DecodeEncode(s: string)
    ensures Decode(Encode(s)) == Some(s)
  {
    if s != [] {
      DecodeEncode(s[1..]);
      DecodeEncodedChar(s[0], Encode(s[1..]));
      assert [s[0]] + s[1..] == s;
    }
  }

  /** Distinct components encode to distinct strings. */
  lemma EncodeInjective(s1: string, s2: string)
    requires Encode(s1) == Encode(s2)
    ensures s1 == s2
  {
    DecodeEncode(s1);
    DecodeEncode(s2);
  }
}
