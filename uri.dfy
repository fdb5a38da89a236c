/**
 * `encodeURIComponent` as ECMA-262 defines it: a character of the
 * uriUnreserved set (letters, digits and - _ . ! ~ * ' ( )) is kept, and every
 * other character is written as the UTF-8 bytes of its code point, each as
 * `%XX` with upper-case hexadecimal digits. Characters here are Unicode
 * scalar values, so the lone-surrogate error of the standard cannot occur.
 *
 * `Unescape` is a left inverse of `Encode`, which makes `Encode` injective:
 * distinct identifiers give distinct path segments.
 */
module UriEncoding {

  type Byte = b: int | 0 <= b < 256

  predicate Unreserved(c: char) {
    ('A' <= c <= 'Z') || ('a' <= c <= 'z') || ('0' <= c <= '9') || c in "-_.!~*'()"
  }

  /** The UTF-8 encoding of one code point. */
  function Utf8(c: char): (bs: seq<Byte>)
    ensures 1 <= |bs| <= 4
  {
    var n := c as int;
    if n < 0x80 then [n]
    else if n < 0x800 then [0xC0 + n / 64, 0x80 + n % 64]
    else if n < 0x10000 then [0xE0 + n / 4096, 0x80 + n / 64 % 64, 0x80 + n % 64]
    else [0xF0 + n / 262144, 0x80 + n / 4096 % 64, 0x80 + n / 64 % 64, 0x80 + n % 64]
  }

  function HexDigit(d: int): (c: char)
    requires 0 <= d < 16
    ensures Unreserved(c)
  {
    if d < 10 then ('0' as int + d) as char else ('A' as int + d - 10) as char
  }

  function Escape(b: Byte): (r: string)
    ensures forall i :: 0 <= i < |r| ==> Unreserved(r[i]) || r[i] == '%'
  {
    ['%', HexDigit(b / 16), HexDigit(b % 16)]
  }

  function EscapeBytes(bs: seq<Byte>): (r: string)
    ensures |r| == 3 * |bs|
    ensures forall i :: 0 <= i < |r| ==> Unreserved(r[i]) || r[i] == '%'
  {
    if bs == [] then [] else Escape(bs[0]) + EscapeBytes(bs[1..])
  }

  /** What `encodeURIComponent` writes for one character. */
  function EncodeChar(c: char): (r: string)
    ensures forall i :: 0 <= i < |r| ==> Unreserved(r[i]) || r[i] == '%'
  {
    if Unreserved(c) then [c] else EscapeBytes(Utf8(c))
  }

  /** `encodeURIComponent(s)`: the result uses only unreserved characters and `%`. */
  function Encode(s: string): (r: string)
    ensures forall i :: 0 <= i < |r| ==> Unreserved(r[i]) || r[i] == '%'
  {
    if s == [] then [] else EncodeChar(s[0]) + Encode(s[1..])
  }

  // ---- the inverse ----

  function HexValue(c: char): (d: int)
    ensures 0 <= d < 16
  {
    if '0' <= c <= '9' then c as int - '0' as int
    else if 'A' <= c <= 'F' then c as int - 'A' as int + 10
    else 0
  }

  /** The byte written as `%XX` at position i of t. */
  function ByteAt(t: string, i: nat): Byte
    requires i + 2 < |t|
  {
    16 * HexValue(t[i + 1]) + HexValue(t[i + 2])
  }

  /** How many bytes a UTF-8 sequence with this first byte has. */
  function SequenceLength(lead: Byte): nat {
    if lead < 0x80 then 1 else if lead < 0xE0 then 2 else if lead < 0xF0 then 3 else 4
  }

  function BytesAt(t: string, k: nat): (bs: seq<Byte>)
    requires 3 * k <= |t|
    ensures |bs| == k
  {
    seq(k, j requires 0 <= j < k => ByteAt(t, 3 * j))
  }

  function FromUtf8(bs: seq<Byte>): int
    requires 1 <= |bs| <= 4
  {
    var b := seq(|bs|, i requires 0 <= i < |bs| => bs[i] as int);
    if |b| == 1 then b[0]
    else if |b| == 2 then (b[0] - 0xC0) * 64 + (b[1] - 0x80)
    else if |b| == 3 then (b[0] - 0xE0) * 4096 + (b[1] - 0x80) * 64 + (b[2] - 0x80)
    else (b[0] - 0xF0) * 262144 + (b[1] - 0x80) * 4096 + (b[2] - 0x80) * 64 + (b[3] - 0x80)
  }

  function ToChar(n: int): char {
    if 0 <= n < 0xD800 || 0xE000 <= n < 0x110000 then n as char else '?'
  }

  /** Percent-decoding of UTF-8 escapes; malformed escapes are kept as they are. */
  function Unescape(t: string): string
    decreases |t|
  {
    if t == [] then []
    else if t[0] != '%' || |t| < 3 then [t[0]] + Unescape(t[1..])
    else
      var k := SequenceLength(ByteAt(t, 0));
      if |t| < 3 * k then [t[0]] + Unescape(t[1..])
      else [ToChar(FromUtf8(BytesAt(t, k)))] + Unescape(t[3 * k..])
  }

  lemma HexRoundTrip(d: int)
    requires 0 <= d < 16
    ensures HexValue(HexDigit(d)) == d
  {
  }

  lemma {:induction false} EscapeBytesAt(bs: seq<Byte>, j: nat)
    requires j < |bs|
    ensures EscapeBytes(bs)[3 * j] == '%'
    ensures EscapeBytes(bs)[3 * j + 1] == HexDigit(bs[j] / 16)
    ensures EscapeBytes(bs)[3 * j + 2] == HexDigit(bs[j] % 16)
  {
    if j > 0 {
      EscapeBytesAt(bs[1..], j - 1);
    }
  }

  /** Reading back the bytes that `EscapeBytes` wrote, whatever follows them. */
  lemma ReadEscapedBytes(bs: seq<Byte>, rest: string)
    ensures BytesAt(EscapeBytes(bs) + rest, |bs|) == bs
  {
    var t := EscapeBytes(bs) + rest;
    forall j | 0 <= j < |bs|
      ensures ByteAt(t, 3 * j) == bs[j]
    {
      EscapeBytesAt(bs, j);
      HexRoundTrip(bs[j] / 16);
      HexRoundTrip(bs[j] % 16);
    }
  }

  lemma Utf8RoundTrip(c: char)
    ensures SequenceLength(Utf8(c)[0]) == |Utf8(c)|
    ensures FromUtf8(Utf8(c)) == c as int
  {
    var n := c as int;
    if n < 0x80 {
    } else if n < 0x800 {
      assert n == n / 64 * 64 + n % 64;
    } else if n < 0x10000 {
      assert n / 64 == n / 4096 * 64 + n / 64 % 64;
      assert n == n / 64 * 64 + n % 64;
    } else {
      assert n / 4096 == n / 262144 * 64 + n / 4096 % 64;
      assert n / 64 == n / 4096 * 64 + n / 64 % 64;
      assert n == n / 64 * 64 + n % 64;
    }
  }

  lemma UnescapeEncodeChar(c: char, rest: string)
    ensures Unescape(EncodeChar(c) + rest) == [c] + Unescape(rest)
  {
    var t := EncodeChar(c) + rest;
    if Unreserved(c) {
      assert t[0] == c && t[1..] == rest;
    } else {
      var bs := Utf8(c);
      var k := |bs|;
      assert t == EscapeBytes(bs) + rest;
      EscapeBytesAt(bs, 0);
      ReadEscapedBytes(bs, rest);
      assert ByteAt(t, 0) == BytesAt(t, k)[0] == bs[0];
      Utf8RoundTrip(c);
      assert t[3 * k..] == rest;
    }
  }

  /** Decoding what `encodeURIComponent` wrote gives back the original string. */
  lemma {:induction false} UnescapeEncode(s: string)
    ensures Unescape(Encode(s)) == s
  {
    if s != [] {
      UnescapeEncodeChar(s[0], Encode(s[1..]));
      UnescapeEncode(s[1..]);
      assert [s[0]] + s[1..] == s;
    }
  }

  /** Distinct identifiers are encoded to distinct strings. */
  lemma EncodeInjective(s: string, t: string)
    ensures Encode(s) == Encode(t) ==> s == t
  {
    UnescapeEncode(s);
    UnescapeEncode(t);
  }

  /** An encoded identifier holds no path or list separator. */
  lemma EncodeHasNoSeparators(s: string)
    ensures '/' !in Encode(s) && ',' !in Encode(s)
  {
  }
}
