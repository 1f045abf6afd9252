/**
 * ECMAScript `encodeURIComponent` (percent-encoding as in section 2.1 of
 * RFC 3986, over the UTF-8 bytes of each character outside the unreserved
 * set), and its inverse `decodeURIComponent`, which serves as the partner
 * the encoder is proved against.
 *
 * Strings are sequences of Unicode scalar values, so the lone-surrogate
 * case in which `encodeURIComponent` throws a URIError cannot arise.
 */
module PercentEncoding {
  import opened Wrappers
  import opened Js

  type Byte = b: int | 0 <= b < 256

  /** The characters `encodeURIComponent` leaves as they are:
      ASCII letters, digits and `- _ . ! ~ * ' ( )`. */
  predicate Unreserved(c: char) {
    ('A' <= c && c <= 'Z') || ('a' <= c && c <= 'z') || ('0' <= c && c <= '9') ||
    c == '-' || c == '_' || c == '.' || c == '!' || c == '~' || c == '*' ||
    c == '\'' || c == '(' || c == ')'
  }

  predicate UpperHexDigit(c: char) {
    ('0' <= c && c <= '9') || ('A' <= c && c <= 'F')
  }

  /** A character that can occur in the output of the encoder. */
  predicate EncodedChar(c: char) {
    Unreserved(c) || c == '%' || UpperHexDigit(c)
  }

  function UpperHex(d: nat): (c: char)
    requires d < 16
    ensures UpperHexDigit(c)
  {
    if d < 10 then ('0' as int + d) as char else ('A' as int + d - 10) as char
  }

  lemma HexValueOfUpperHex(d: nat)
    requires d < 16
    ensures HexDigitValue(UpperHex(d)) == Some(d)
  {
  }

  predicate Continuation(b: Byte) {
    0x80 <= b < 0xC0
  }

  /** The UTF-8 encoding of one character (section 3 of RFC 3629). */
  function Utf8(c: char): (bs: seq<Byte>)
    ensures 1 <= |bs| <= 4
  {
    var n := c as int;
    var m := n / 64;
    var m2 := m / 64;
    if n < 0x80 then [n]
    else if n < 0x800 then [0xC0 + m, 0x80 + n % 64]
    else if n < 0x10000 then [0xE0 + m2, 0x80 + m % 64, 0x80 + n % 64]
    else [0xF0 + m2 / 64, 0x80 + m2 % 64, 0x80 + m % 64, 0x80 + n % 64]
  }

  /** How many bytes a UTF-8 sequence with this lead byte has; 0 when the
      byte cannot start a sequence. */
  function SequenceLength(lead: Byte): (k: nat)
    ensures k <= 4
  {
    if lead < 0x80 then 1
    else if 0xC0 <= lead < 0xE0 then 2
    else if 0xE0 <= lead < 0xF0 then 3
    else if 0xF0 <= lead < 0xF8 then 4
    else 0
  }

  /** Decodes one complete UTF-8 sequence, refusing overlong forms,
      surrogates and code points above U+10FFFF. */
  function Utf8Decode(bs: seq<Byte>): Option<char> {
    if |bs| == 1 && bs[0] < 0x80 then
      Some(bs[0] as char)
    else if |bs| == 2 && 0xC0 <= bs[0] < 0xE0 && Continuation(bs[1]) then
      var n := Payload(bs[0], 0xC0) * 64 + Payload(bs[1], 0x80);
      if n < 0x80 then None else Some(n as char)
    else if |bs| == 3 && 0xE0 <= bs[0] < 0xF0 && Continuation(bs[1]) && Continuation(bs[2]) then
      var n := (Payload(bs[0], 0xE0) * 64 + Payload(bs[1], 0x80)) * 64 + Payload(bs[2], 0x80);
      if n < 0x800 || (0xD800 <= n < 0xE000) then None else Some(n as char)
    else if |bs| == 4 && 0xF0 <= bs[0] < 0xF8 && Continuation(bs[1]) && Continuation(bs[2]) && Continuation(bs[3]) then
      var n := ((Payload(bs[0], 0xF0) * 64 + Payload(bs[1], 0x80)) * 64 + Payload(bs[2], 0x80)) * 64 + Payload(bs[3], 0x80);
      if n < 0x10000 || n > 0x10FFFF then None else Some(n as char)
    else
      None
  }

  /** The bits a byte carries once its marker bits `marker` are removed. */
  function Payload(b: Byte, marker: int): int {
    b - marker
  }

  lemma {:induction false} Utf8RoundTrip(c: char)
    ensures SequenceLength(Utf8(c)[0]) == |Utf8(c)|
    ensures Utf8Decode(Utf8(c)) == Some(c)
  {
    var n := c as int;
    var m := n / 64;
    var m2 := m / 64;
    assert n == m * 64 + n % 64;
    assert m == m2 * 64 + m % 64;
    assert m2 == (m2 / 64) * 64 + m2 % 64;
    assert n < 0xD800 || 0xE000 <= n;
  }

  function PercentByte(b: Byte): string {
    ['%', UpperHex(b / 16), UpperHex(b % 16)]
  }

  function PercentBytes(bs: seq<Byte>): (s: string)
    ensures |s| == 3 * |bs|
  {
    if bs == [] then [] else PercentByte(bs[0]) + PercentBytes(bs[1..])
  }

  function EncodeChar(c: char): string {
    if Unreserved(c) then [c] else PercentBytes(Utf8(c))
  }

  /** `encodeURIComponent(s)`. */
  function Encode(s: string): string {
    if s == [] then [] else EncodeChar(s[0]) + Encode(s[1..])
  }

  /** Reads `k` consecutive `%XX` escapes from the front of `s`. */
  function ReadEscapes(s: string, k: nat): (r: Option<seq<Byte>>)
    ensures r.Some? ==> |r.value| == k && 3 * k <= |s|
  {
    if k == 0 then Some([])
    else if |s| < 3 || s[0] != '%' then None
    else
      match (HexDigitValue(s[1]), HexDigitValue(s[2]))
      case (Some(hi), Some(lo)) =>
        (match ReadEscapes(s[3..], k - 1)
         case None => None
         case Some(rest) => Some([hi * 16 + lo] + rest))
      case _ => None
  }

  /** `decodeURIComponent(s)`: None where it throws a URIError. */
  function Decode(s: string): Option<string>
    decreases |s|
  {
    if s == [] then Some([])
    else if s[0] != '%' then
      match Decode(s[1..])
      case None => None
      case Some(t) => Some([s[0]] + t)
    else
      match ReadEscapes(s, 1)
      case None => None
      case Some(lead) =>
        var k := SequenceLength(lead[0]);
        if k == 0 then None
        else
          match ReadEscapes(s, k)
          case None => None
          case Some(bs) =>
            match Utf8Decode(bs)
            case None => None
            case Some(c) =>
              match Decode(s[3 * k..])
              case None => None
              case Some(t) => Some([c] + t)
  }

  lemma {:induction false} ReadEscapesOfPercentBytes(bs: seq<Byte>, rest: string, j: nat)
    requires j <= |bs|
    ensures ReadEscapes(PercentBytes(bs) + rest, j) == Some(bs[..j])
    decreases j
  {
    if j > 0 {
      var s := PercentBytes(bs) + rest;
      HexValueOfUpperHex(bs[0] / 16);
      HexValueOfUpperHex(bs[0] % 16);
      assert s[..3] == PercentByte(bs[0]);
      assert s[3..] == PercentBytes(bs[1..]) + rest;
      ReadEscapesOfPercentBytes(bs[1..], rest, j - 1);
      assert bs[..j] == [bs[0]] + bs[1..][..j - 1];
    }
  }

  /** Decoding undoes encoding: `decodeURIComponent(encodeURIComponent(s)) === s`. */
  lemma {:induction false} DecodeEncode(s: string)
    ensures Decode(Encode(s)) == Some(s)
  {
    if s != [] {
      DecodeEncode(s[1..]);
      DecodeEncodedChar(s[0], Encode(s[1..]), s[1..]);
      assert [s[0]] + s[1..] == s;
    }
  }

  /** Decoding one encoded character followed by text that decodes to `t`. */
  lemma DecodeEncodedChar(c: char, rest: string, t: string)
    requires Decode(rest) == Some(t)
    ensures Decode(EncodeChar(c) + rest) == Some([c] + t)
  {
    var e := EncodeChar(c) + rest;
    if Unreserved(c) {
      assert e[0] == c && e[1..] == rest;
    } else {
      var bs := Utf8(c);
      Utf8RoundTrip(c);
      ReadEscapesOfPercentBytes(bs, rest, 1);
      ReadEscapesOfPercentBytes(bs, rest, |bs|);
      assert bs[..1] == [bs[0]] && bs[..|bs|] == bs;
      assert e[0] == '%';
      assert ReadEscapes(e, 1) == Some([bs[0]]);
      assert ReadEscapes(e, |bs|) == Some(bs);
      assert e[3 * |bs|..] == rest;
    }
  }

  lemma {:induction false} PercentBytesChars(bs: seq<Byte>)
    ensures forall i :: 0 <= i < |PercentBytes(bs)| ==> EncodedChar(PercentBytes(bs)[i])
  {
    if bs != [] {
      PercentBytesChars(bs[1..]);
      var p := PercentByte(bs[0]);
      var t := PercentBytes(bs[1..]);
      assert PercentBytes(bs) == p + t;
      forall i | 0 <= i < |p + t| ensures EncodedChar((p + t)[i]) {
        if i >= 3 { assert (p + t)[i] == t[i - 3]; }
      }
    }
  }

  /** Every character of an encoded value is unreserved, `%` or an upper-case
      hex digit. */
  lemma {:induction false} EncodedAlphabet(s: string)
    ensures forall i :: 0 <= i < |Encode(s)| ==> EncodedChar(Encode(s)[i])
  {
    if s != [] {
      EncodedAlphabet(s[1..]);
      PercentBytesChars(Utf8(s[0]));
      var a := EncodeChar(s[0]);
      var t := Encode(s[1..]);
      assert Encode(s) == a + t;
      forall i | 0 <= i < |a + t| ensures EncodedChar((a + t)[i]) {
        if i >= |a| { assert (a + t)[i] == t[i - |a|]; }
      }
    }
  }

  /** No raw `&`, `=` or `#` survives encoding, so an encoded value can
      neither end a URL parameter nor start a fragment. */
  lemma NoRawDelimiters(s: string)
    ensures '&' !in Encode(s) && '=' !in Encode(s) && '#' !in Encode(s)
  {
    EncodedAlphabet(s);
  }
}
