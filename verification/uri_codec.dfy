/**
 * The browser's text codecs that sit between a search query and a URL:
 * UTF-8 (the well-formed sequences of section 3.9 of the Unicode Standard,
 * table 3-7, and the error-replacing UTF-8 decoder of the WHATWG Encoding
 * Standard), `encodeURIComponent` and `decodeURIComponent` (section 19.2.6 of
 * ECMA-262), the application/x-www-form-urlencoded parser behind
 * `URLSearchParams` (section 5.1 of the WHATWG URL Standard) and the query
 * component of `new URL(url)`.
 *
 * Strings are sequences of Unicode scalar values; lone UTF-16 surrogates,
 * which JavaScript strings may hold, do not occur.
 */
module UriCodec {
  import opened Wrappers
  import opened Strings

  newtype byte = x: int | 0 <= x < 256

  // ---------------------------------------------------------------- UTF-8

  /** The UTF-8 encoding of one scalar value: 1 to 4 bytes, one byte exactly for ASCII. */
  function Utf8Encode(c: char): (bs: seq<byte>)
    ensures 1 <= |bs| <= 4
    ensures |bs| == 1 <==> c as int < 0x80
    ensures |bs| == 1 ==> bs[0] as int == c as int
  {
    var x := c as int;
    if x < 0x80 then [x as byte]
    else if x < 0x800 then [(0xC0 + x / 64) as byte, (0x80 + x % 64) as byte]
    else if x < 0x10000 then
      [(0xE0 + x / 4096) as byte, (0x80 + x / 64 % 64) as byte, (0x80 + x % 64) as byte]
    else
      [(0xF0 + x / 262144) as byte, (0x80 + x / 4096 % 64) as byte,
       (0x80 + x / 64 % 64) as byte, (0x80 + x % 64) as byte]
  }

  function Utf8EncodeString(s: string): seq<byte>
  {
    if s == [] then [] else Utf8Encode(s[0]) + Utf8EncodeString(s[1..])
  }

  /** What the decoder makes of the front of a byte sequence, and how many bytes that takes. */
  datatype Unit = Scalar(c: char, len: nat) | Malformed(len: nat)

  predicate InRange(b: byte, lo: int, hi: int)
  {
    lo <= b as int <= hi
  }

  /**
   * One step of the WHATWG UTF-8 decoder: the scalar value of the
   * well-formed sequence at the front of `bs`, or an error that consumes
   * the bytes read before the offending byte (that byte is read again),
   * or the whole truncated sequence at the end of the input.
   */
  function DecodeStep(bs: seq<byte>): (u: Unit)
    requires |bs| > 0
    ensures 1 <= u.len <= |bs| && u.len <= 4
  {
    var b0 := bs[0] as int;
    if b0 < 0x80 then Scalar(b0 as char, 1)
    else if 0xC2 <= b0 <= 0xDF then
      if |bs| < 2 || !InRange(bs[1], 0x80, 0xBF) then Malformed(1)
      else Scalar(((b0 - 0xC0) * 64 + (bs[1] as int - 0x80)) as char, 2)
    else if 0xE0 <= b0 <= 0xEF then
      var lo := if b0 == 0xE0 then 0xA0 else 0x80;
      var hi := if b0 == 0xED then 0x9F else 0xBF;
      if |bs| < 2 || !InRange(bs[1], lo, hi) then Malformed(1)
      else if |bs| < 3 || !InRange(bs[2], 0x80, 0xBF) then Malformed(2)
      else Scalar(((b0 - 0xE0) * 4096 + (bs[1] as int - 0x80) * 64 + (bs[2] as int - 0x80)) as char, 3)
    else if 0xF0 <= b0 <= 0xF4 then
      var lo := if b0 == 0xF0 then 0x90 else 0x80;
      var hi := if b0 == 0xF4 then 0x8F else 0xBF;
      if |bs| < 2 || !InRange(bs[1], lo, hi) then Malformed(1)
      else if |bs| < 3 || !InRange(bs[2], 0x80, 0xBF) then Malformed(2)
      else if |bs| < 4 || !InRange(bs[3], 0x80, 0xBF) then Malformed(3)
      else
        Scalar(((b0 - 0xF0) * 262144 + (bs[1] as int - 0x80) * 4096
                + (bs[2] as int - 0x80) * 64 + (bs[3] as int - 0x80)) as char, 4)
    else Malformed(1)
  }

  /** "UTF-8 decode without BOM": every malformed stretch becomes U+FFFD. */
  function Utf8Decode(bs: seq<byte>): string
    decreases |bs|
  {
    if bs == [] then []
    else
      match DecodeStep(bs)
      case Scalar(c, n) => [c] + Utf8Decode(bs[n..])
      case Malformed(n) => ['\U{FFFD}'] + Utf8Decode(bs[n..])
  }

  /** The decoder reads back exactly the scalar value an encoding came from. */
  lemma DecodeStepEncode(c: char, rest: seq<byte>)
    ensures DecodeStep(Utf8Encode(c) + rest) == Scalar(c, |Utf8Encode(c)|)
  {
    var x := c as int;
    if x < 0x80 {
    } else if x < 0x800 {
      DecodeTwo(c, rest);
    } else if x < 0x10000 {
      DecodeThree(c, rest);
    } else {
      DecodeFour(c, rest);
    }
  }

  lemma DecodeTwo(c: char, rest: seq<byte>)
    requires 0x80 <= c as int < 0x800
    ensures DecodeStep(Utf8Encode(c) + rest) == Scalar(c, 2)
  {
    var x := c as int;
    var bs := Utf8Encode(c) + rest;
    assert bs[0] as int == 0xC0 + x / 64 && bs[1] as int == 0x80 + x % 64;
  }

  lemma DecodeThree(c: char, rest: seq<byte>)
    requires 0x800 <= c as int < 0x10000
    ensures DecodeStep(Utf8Encode(c) + rest) == Scalar(c, 3)
  {
    var x := c as int;
    var bs := Utf8Encode(c) + rest;
    var b0, b1, b2 := x / 4096, x / 64 % 64, x % 64;
    Digits3(x);
    assert bs[0] as int == 0xE0 + b0 && bs[1] as int == 0x80 + b1 && bs[2] as int == 0x80 + b2;
  }

  lemma Digits3(x: int)
    requires 0x800 <= x < 0x10000
    ensures x == x / 4096 * 4096 + x / 64 % 64 * 64 + x % 64
    ensures x / 4096 == 0 ==> x / 64 % 64 >= 0x20
    ensures x / 4096 == 0xD && x < 0xD800 ==> x / 64 % 64 <= 0x1F
  {
  }

  lemma DecodeFour(c: char, rest: seq<byte>)
    requires 0x10000 <= c as int
    ensures DecodeStep(Utf8Encode(c) + rest) == Scalar(c, 4)
  {
    var x := c as int;
    var bs := Utf8Encode(c) + rest;
    var b0, b1, b2, b3 := x / 262144, x / 4096 % 64, x / 64 % 64, x % 64;
    Digits4(x);
    assert bs[0] as int == 0xF0 + b0 && bs[1] as int == 0x80 + b1;
    assert bs[2] as int == 0x80 + b2 && bs[3] as int == 0x80 + b3;
  }

  lemma Digits4(x: int)
    requires 0x10000 <= x < 0x110000
    ensures x == x / 262144 * 262144 + x / 4096 % 64 * 4096 + x / 64 % 64 * 64 + x % 64
    ensures x / 262144 <= 4
    ensures x / 262144 == 0 ==> x / 4096 % 64 >= 0x10
    ensures x / 262144 == 4 ==> x / 4096 % 64 <= 0x0F
  {
  }

  lemma Utf8EncodeConcat(s: string, t: string)
    ensures Utf8EncodeString(s + t) == Utf8EncodeString(s) + Utf8EncodeString(t)
  {
    if s != [] {
      assert (s + t)[0] == s[0];
      assert (s + t)[1..] == s[1..] + t;
      Utf8EncodeConcat(s[1..], t);
    } else {
      assert s + t == t;
    }
  }

  /** Decoding the UTF-8 encoding of a string gives the string back. */
  lemma {:induction false} Utf8RoundTrip(s: string)
    ensures Utf8Decode(Utf8EncodeString(s)) == s
  {
    if s != [] {
      var e := Utf8Encode(s[0]);
      var bs := Utf8EncodeString(s);
      DecodeStepEncode(s[0], Utf8EncodeString(s[1..]));
      assert bs[|e|..] == Utf8EncodeString(s[1..]);
      Utf8RoundTrip(s[1..]);
    }
  }

  // ---------------------------------------------------------------- hexadecimal

  predicate IsHexDigit(c: char)
  {
    '0' <= c <= '9' || 'A' <= c <= 'F' || 'a' <= c <= 'f'
  }

  function HexValue(c: char): (v: nat)
    requires IsHexDigit(c)
    ensures v < 16
  {
    if c <= '9' then c as int - '0' as int
    else if c <= 'F' then c as int - 'A' as int + 10
    else c as int - 'a' as int + 10
  }

  /** The byte written by the two hexadecimal digits `h` and `l`. */
  function HexByte(h: char, l: char): byte
    requires IsHexDigit(h) && IsHexDigit(l)
  {
    (HexValue(h) * 16 + HexValue(l)) as byte
  }

  const UpperHex: string := "0123456789ABCDEF"

  lemma UpperHexValue(d: nat)
    requires d < 16
    ensures IsHexDigit(UpperHex[d]) && HexValue(UpperHex[d]) == d
  {
    if d < 10 {
      assert UpperHex[d] as int == '0' as int + d;
    } else {
      assert UpperHex[d] as int == 'A' as int + d - 10;
    }
  }

  // ---------------------------------------------------------------- encodeURIComponent

  /** The characters `encodeURIComponent` leaves as they are: `A-Z a-z 0-9 - _ . ! ~ * ' ( )`. */
  predicate IsUriUnescaped(c: char)
  {
    'A' <= c <= 'Z' || 'a' <= c <= 'z' || '0' <= c <= '9' || c in "-_.!~*'()"
  }

  /** `%XX` with upper-case hexadecimal digits. */
  function PercentEscape(b: byte): (r: string)
    ensures |r| == 3 && r[0] == '%' && IsHexDigit(r[1]) && IsHexDigit(r[2])
    ensures HexByte(r[1], r[2]) == b
  {
    UpperHexValue(b as int / 16);
    UpperHexValue(b as int % 16);
    ['%', UpperHex[b / 16], UpperHex[b % 16]]
  }

  /** An escape followed by more text: `%`, two digits denoting the byte, then the text. */
  lemma EscapeFront(b: byte, tail: string)
    ensures var t := PercentEscape(b) + tail;
      && |t| >= 3 && t[0] == '%' && IsHexDigit(t[1]) && IsHexDigit(t[2])
      && HexByte(t[1], t[2]) == b && t[3..] == tail
  {
    var e := PercentEscape(b);
    var t := e + tail;
    assert t[0] == e[0] && t[1] == e[1] && t[2] == e[2];
  }

  /** The escapes of a non-empty byte sequence: the first byte's escape, then the rest's. */
  lemma EscapeAllFront(bs: seq<byte>, rest: string)
    requires bs != []
    ensures PercentEscapeAll(bs) + rest == PercentEscape(bs[0]) + (PercentEscapeAll(bs[1..]) + rest)
  {
  }

  function PercentEscapeAll(bs: seq<byte>): (r: string)
    ensures |r| == 3 * |bs|
  {
    if bs == [] then "" else PercentEscape(bs[0]) + PercentEscapeAll(bs[1..])
  }

  /**
   * `encodeURIComponent(s)`: unescaped characters are copied, every other
   * character becomes the `%XX` escapes of its UTF-8 bytes.
   */
  function EncodeURIComponent(s: string): (r: string)
    ensures |s| <= |r|
    ensures r == [] <==> s == []
    ensures (forall i | 0 <= i < |s| :: IsUriUnescaped(s[i])) ==> r == s
  {
    if s == [] then ""
    else
      (if IsUriUnescaped(s[0]) then [s[0]] else PercentEscapeAll(Utf8Encode(s[0])))
      + EncodeURIComponent(s[1..])
  }

  /** The text `encodeURIComponent` produces: unescaped characters and `%`. */
  predicate IsEncodedText(r: string)
  {
    forall i | 0 <= i < |r| :: IsUriUnescaped(r[i]) || r[i] == '%'
  }

  lemma PercentEscapeAllText(bs: seq<byte>)
    ensures IsEncodedText(PercentEscapeAll(bs))
  {
    if bs != [] {
      var e := PercentEscape(bs[0]);
      assert IsUriUnescaped(e[1]) && IsUriUnescaped(e[2]);
      PercentEscapeAllText(bs[1..]);
    }
  }

  /**
   * The output of `encodeURIComponent` holds only unescaped characters and
   * `%`: no `{`, `}`, `?`, `&`, `#`, `=`, `+`, `$`, space or control character.
   */
  lemma {:induction false} EncodedTextOnly(s: string)
    ensures IsEncodedText(EncodeURIComponent(s))
  {
    if s != [] {
      EncodedTextOnly(s[1..]);
      if !IsUriUnescaped(s[0]) {
        PercentEscapeAllText(Utf8Encode(s[0]));
      }
    }
  }

  lemma EncodedTextExcludes(r: string)
    requires IsEncodedText(r)
    ensures '{' !in r && '}' !in r && '?' !in r && '&' !in r && '#' !in r
    ensures '=' !in r && '+' !in r && '$' !in r
    ensures forall i | 0 <= i < |r| :: r[i] as int > 0x20
  {
  }

  // ---------------------------------------------------------------- decodeURIComponent

  /** The number of leading one bits of a byte. */
  function LeadingOnes(b: byte): nat
  {
    if b < 0x80 then 0 else if b < 0xC0 then 1 else if b < 0xE0 then 2
    else if b < 0xF0 then 3 else if b < 0xF8 then 4 else if b < 0xFC then 5
    else if b < 0xFE then 6 else if b < 0xFF then 7 else 8
  }

  /** `m` escapes `%XX` at the front of `t`, each of a continuation byte `10xxxxxx`. */
  function Continuations(t: string, m: nat): (r: Option<seq<byte>>)
    ensures r.Some? ==> |r.value| == m && 3 * m <= |t|
  {
    if m == 0 then Some([])
    else if |t| < 3 || t[0] != '%' || !IsHexDigit(t[1]) || !IsHexDigit(t[2]) then None
    else
      var b := HexByte(t[1], t[2]);
      if !InRange(b, 0x80, 0xBF) then None
      else
        match Continuations(t[3..], m - 1)
        case None => None
        case Some(rest) => Some([b] + rest)
  }

  function Prepend(p: string, r: Option<string>): Option<string>
  {
    match r
    case None => None
    case Some(t) => Some(p + t)
  }

  /**
   * `decodeURIComponent(s)`, `None` standing for the URIError it throws:
   * every `%XX` escape (or run of escapes forming one well-formed UTF-8
   * sequence) becomes its character; a `%` not followed by two hexadecimal
   * digits, a stray continuation byte, a truncated or ill-formed sequence
   * makes the whole call fail.
   */
  function DecodeURIComponent(s: string): (r: Option<string>)
    decreases |s|
    ensures r.Some? ==> (r.value == [] <==> s == [])
  {
    if s == [] then Some([])
    else if s[0] != '%' then Prepend([s[0]], DecodeURIComponent(s[1..]))
    else if |s| < 3 || !IsHexDigit(s[1]) || !IsHexDigit(s[2]) then None
    else
      var b := HexByte(s[1], s[2]);
      var n := LeadingOnes(b);
      if n == 0 then Prepend([b as int as char], DecodeURIComponent(s[3..]))
      else if n == 1 || n > 4 then None
      else
        match Continuations(s[3..], n - 1)
        case None => None
        case Some(cont) =>
          match DecodeStep([b] + cont)
          case Scalar(c, len) =>
            if len == n then Prepend([c], DecodeURIComponent(s[3 * n..])) else None
          case Malformed(_) => None
  }

  /** A well-formed multi-byte sequence starts with as many one bits as it has bytes. */
  lemma ScalarShape(bs: seq<byte>)
    requires |bs| > 0 && DecodeStep(bs).Scalar? && DecodeStep(bs).len >= 2
    ensures LeadingOnes(bs[0]) == DecodeStep(bs).len
    ensures forall i | 1 <= i < DecodeStep(bs).len :: InRange(bs[i], 0x80, 0xBF)
  {
  }

  lemma {:induction false} ContinuationsOfEscapes(bs: seq<byte>, rest: string)
    requires forall i | 0 <= i < |bs| :: InRange(bs[i], 0x80, 0xBF)
    ensures Continuations(PercentEscapeAll(bs) + rest, |bs|) == Some(bs)
  {
    if bs != [] {
      var tail := PercentEscapeAll(bs[1..]) + rest;
      EscapeAllFront(bs, rest);
      EscapeFront(bs[0], tail);
      ContinuationsOfEscapes(bs[1..], rest);
      ConsAppend(bs, []);
    }
  }

  /** The escapes of one character decode back to that character. */
  lemma DecodeEscapedChar(c: char, rest: string)
    ensures DecodeURIComponent(PercentEscapeAll(Utf8Encode(c)) + rest)
         == Prepend([c], DecodeURIComponent(rest))
  {
    var bs := Utf8Encode(c);
    var tail := PercentEscapeAll(bs[1..]) + rest;
    EscapeAllFront(bs, rest);
    EscapeFront(bs[0], tail);
    DecodeStepEncode(c, []);
    DropFront(bs, []);
    DropFront(PercentEscapeAll(bs), rest);
    if |bs| > 1 {
      ScalarShape(bs);
      ContinuationsOfEscapes(bs[1..], rest);
      ConsAppend(bs, []);
    }
  }

  /** `decodeURIComponent(encodeURIComponent(s)) === s` for every string of scalar values. */
  lemma {:induction false} DecodeEncode(s: string)
    ensures DecodeURIComponent(EncodeURIComponent(s)) == Some(s)
  {
    if s != [] {
      DecodeEncode(s[1..]);
      if IsUriUnescaped(s[0]) {
        var e := EncodeURIComponent(s);
        assert e == [s[0]] + EncodeURIComponent(s[1..]);
        assert e[1..] == EncodeURIComponent(s[1..]);
      } else {
        DecodeEscapedChar(s[0], EncodeURIComponent(s[1..]));
      }
      assert [s[0]] + s[1..] == s;
    }
  }

  /** Text without `%` is its own decoding. */
  lemma {:induction false} DecodeNoPercent(s: string)
    requires '%' !in s
    ensures DecodeURIComponent(s) == Some(s)
  {
    if s != [] {
      assert '%' !in s[1..];
      DecodeNoPercent(s[1..]);
      assert [s[0]] + s[1..] == s;
    }
  }

  /** A successful decoding is never longer than its input, and strictly shorter when the input holds a `%`. */
  lemma {:induction false} DecodeShrinks(s: string)
    ensures DecodeURIComponent(s).Some? ==>
              |DecodeURIComponent(s).value| + (if '%' in s then 1 else 0) <= |s|
    decreases |s|
  {
    if s != [] && DecodeURIComponent(s).Some? {
      if s[0] != '%' {
        DecodeShrinks(s[1..]);
        assert s == [s[0]] + s[1..];
        assert '%' in s ==> '%' in s[1..];
      } else {
        var b := HexByte(s[1], s[2]);
        var n := LeadingOnes(b);
        if n == 0 {
          DecodeShrinks(s[3..]);
        } else {
          DecodeShrinks(s[3 * n..]);
        }
      }
    }
  }

  /**
   * Decoding changes nothing exactly when there is no `%`: a first-decoded
   * value without `%` passes the second decoding unchanged, and one with a
   * `%` either fails or comes out different.
   */
  lemma DecodeIdentityIff(s: string)
    ensures DecodeURIComponent(s) == Some(s) <==> '%' !in s
  {
    if '%' in s {
      DecodeShrinks(s);
    } else {
      DecodeNoPercent(s);
    }
  }

}
