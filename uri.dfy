/**
 * `encodeURIComponent` as section 18.2.6.5 of ECMAScript 2015 (ECMA-262)
 * defines it, over strings of Unicode scalar values, and a decoder that
 * undoes it.
 */
module Uri {
  import opened Wrappers

  /** The characters the encoding leaves alone: letters, digits and `- _ . ! ~ * ' ( )`. */
  predicate Unreserved(c: char) {
    ('A' <= c <= 'Z') || ('a' <= c <= 'z') || ('0' <= c <= '9') || c in "-_.!~*'()"
  }

  predicate IsByte(b: int) { 0 <= b < 256 }

  /** The UTF-8 encoding of one code point. */
  function Utf8(c: char): (bs: seq<int>)
    ensures 1 <= |bs| <= 4
    ensures forall i :: 0 <= i < |bs| ==> IsByte(bs[i])
  {
    var cp := c as int;
    if cp < 0x80 then [cp]
    else if cp < 0x800 then [0xC0 + cp / 64, 0x80 + cp % 64]
    else if cp < 0x10000 then [0xE0 + cp / 4096, 0x80 + (cp / 64) % 64, 0x80 + cp % 64]
    else [0xF0 + cp / 262144, 0x80 + (cp / 4096) % 64, 0x80 + (cp / 64) % 64, 0x80 + cp % 64]
  }

  function HexDigit(d: int): char
    requires 0 <= d < 16
  {
    "0123456789ABCDEF"[d]
  }

  /** A character the encoder may emit. */
  predicate UriSafe(ch: char) {
    Unreserved(ch) || ch == '%' || ch in "0123456789ABCDEF"
  }

  /** `%XX`, upper-case hexadecimal, for one byte. */
  function Escape(b: int): (t: string)
    requires IsByte(b)
    ensures |t| == 3 && t[0] == '%'
    ensures forall i :: 0 <= i < |t| ==> UriSafe(t[i])
  {
    ['%', HexDigit(b / 16), HexDigit(b % 16)]
  }

  function EscapeAll(bs: seq<int>): (t: string)
    requires forall i :: 0 <= i < |bs| ==> IsByte(bs[i])
    ensures |t| == 3 * |bs|
    ensures forall i :: 0 <= i < |t| ==> UriSafe(t[i])
  {
    if bs == [] then "" else Escape(bs[0]) + EscapeAll(bs[1..])
  }

  function EncodeChar(c: char): (t: string)
    ensures forall i :: 0 <= i < |t| ==> UriSafe(t[i])
  {
    if Unreserved(c) then [c] else EscapeAll(Utf8(c))
  }

  /** `encodeURIComponent(s)`. */
  function EncodeURIComponent(s: string): (t: string)
    ensures forall i :: 0 <= i < |t| ==> UriSafe(t[i])
  {
    if s == [] then "" else EncodeChar(s[0]) + EncodeURIComponent(s[1..])
  }

  // ----- decoding: the partner of the encoder -----

  function HexValue(c: char): Option<int> {
    if '0' <= c <= '9' then Some(c as int - '0' as int)
    else if 'A' <= c <= 'F' then Some(c as int - 'A' as int + 10)
    else if 'a' <= c <= 'f' then Some(c as int - 'a' as int + 10)
    else None
  }

  /** The byte escaped at positions 3k..3k+2 of `t`, if that is a `%XX` escape. */
  function ByteAt(t: string, k: nat): (r: Option<int>)
    ensures r.Some? ==> IsByte(r.value)
  {
    if |t| < 3 * k + 3 || t[3 * k] != '%' then None
    else match (HexValue(t[3 * k + 1]), HexValue(t[3 * k + 2]))
      case (Some(h), Some(l)) => Some(16 * h + l)
      case _ => None
  }

  /** A UTF-8 continuation byte escaped at position 3k, contributing its low six bits. */
  function ContAt(t: string, k: nat): (r: Option<int>)
    ensures r.Some? ==> 0 <= r.value < 64
  {
    match ByteAt(t, k)
    case Some(b) => if 0x80 <= b < 0xC0 then Some(b - 0x80) else None
    case None => None
  }

  predicate IsScalar(cp: int) {
    (0 <= cp < 0xD800) || (0xE000 <= cp < 0x110000)
  }

  /**
   * The code point and the number of escaped bytes of the UTF-8 sequence at
   * the head of `t`; None for a malformed, overlong or surrogate sequence.
   */
  function DecodeHead(t: string): (r: Option<(char, nat)>)
    ensures r.Some? ==> 1 <= r.value.1 <= 4 && IsScalar(r.value.0 as int)
    ensures r.Some? ==> r.value.0 as int >= MinCodePoint(r.value.1)
  {
    match ByteAt(t, 0)
    case None => None
    case Some(b0) =>
      var len: nat := if b0 < 0x80 then 1 else if 0xC0 <= b0 < 0xE0 then 2
                      else if 0xE0 <= b0 < 0xF0 then 3 else if 0xF0 <= b0 < 0xF8 then 4 else 0;
      if len == 0 then None
      else
        var c1 := if len >= 2 then ContAt(t, 1) else Some(0);
        var c2 := if len >= 3 then ContAt(t, 2) else Some(0);
        var c3 := if len >= 4 then ContAt(t, 3) else Some(0);
        if c1.None? || c2.None? || c3.None? then None
        else
          var cp :=
            if len == 1 then b0
            else if len == 2 then (b0 - 0xC0) * 64 + c1.value
            else if len == 3 then (b0 - 0xE0) * 4096 + c1.value * 64 + c2.value
            else (b0 - 0xF0) * 262144 + c1.value * 4096 + c2.value * 64 + c3.value;
          if IsScalar(cp) && cp >= MinCodePoint(len) then Some((cp as char, len)) else None
  }

  /** The least code point a sequence of `len` bytes may carry: shorter forms are overlong and refused. */
  function MinCodePoint(len: nat): int {
    if len == 2 then 0x80 else if len == 3 then 0x800 else if len == 4 then 0x10000 else 0
  }

  /**
   * `decodeURIComponent(t)` on strings of scalar values, or None where it
   * would throw a URIError: a `%` not followed by two hex digits, or escapes
   * that are not the shortest UTF-8 form of a scalar value.
   */
  function DecodeURIComponent(t: string): Option<string>
    decreases |t|
  {
    if t == [] then Some("")
    else if t[0] != '%' then
      match DecodeURIComponent(t[1..])
      case Some(rest) => Some([t[0]] + rest)
      case None => None
    else
      match DecodeHead(t)
      case None => None
      case Some((c, len)) =>
        if |t| < 3 * len then None
        else
          match DecodeURIComponent(t[3 * len..])
          case Some(rest) => Some([c] + rest)
          case None => None
  }

  lemma HexRoundTrip(d: int)
    requires 0 <= d < 16
    ensures HexValue(HexDigit(d)) == Some(d)
  {
  }

  lemma ByteAtEscape(b: int, rest: string)
    requires IsByte(b)
    ensures ByteAt(Escape(b) + rest, 0) == Some(b)
  {
    var t := Escape(b) + rest;
    assert t[0] == '%' && t[1] == HexDigit(b / 16) && t[2] == HexDigit(b % 16);
    HexRoundTrip(b / 16);
    HexRoundTrip(b % 16);
    assert 16 * (b / 16) + b % 16 == b;
  }

  /** Dropping one escape shifts the escape positions by one. */
  lemma ByteAtShift(t: string, k: nat)
    requires |t| >= 3
    ensures ByteAt(t, k + 1) == ByteAt(t[3..], k)
  {
    if |t| >= 3 * k + 6 {
      assert t[3 * (k + 1)] == t[3..][3 * k];
      assert t[3 * (k + 1) + 1] == t[3..][3 * k + 1];
      assert t[3 * (k + 1) + 2] == t[3..][3 * k + 2];
    }
  }

  /** The k-th escape of an escaped byte sequence reads back as the k-th byte. */
  lemma {:induction false} ByteAtEscapeAll(bs: seq<int>, rest: string, k: nat)
    requires forall i :: 0 <= i < |bs| ==> IsByte(bs[i])
    requires k < |bs|
    ensures ByteAt(EscapeAll(bs) + rest, k) == Some(bs[k])
  {
    var t := EscapeAll(bs) + rest;
    assert t == Escape(bs[0]) + (EscapeAll(bs[1..]) + rest);
    if k == 0 {
      ByteAtEscape(bs[0], EscapeAll(bs[1..]) + rest);
    } else {
      ByteAtEscapeAll(bs[1..], rest, k - 1);
      ByteAtShift(t, k - 1);
      assert t[3..] == EscapeAll(bs[1..]) + rest;
    }
  }

  /** The bytes of a multi-byte sequence carry the code point: their payload bits recombine to it. */
  lemma Utf8Payload(c: char)
    ensures var bs, cp := Utf8(c), c as int;
      cp >= MinCodePoint(|bs|) &&
      (|bs| == 2 ==> 0xC0 <= bs[0] < 0xE0 && (bs[0] - 0xC0) * 64 + (bs[1] - 0x80) == cp) &&
      (|bs| == 3 ==> 0xE0 <= bs[0] < 0xF0 && (bs[0] - 0xE0) * 4096 + (bs[1] - 0x80) * 64 + (bs[2] - 0x80) == cp) &&
      (|bs| == 4 ==> (0xF0 <= bs[0] < 0xF8 &&
         (bs[0] - 0xF0) * 262144 + (bs[1] - 0x80) * 4096 + (bs[2] - 0x80) * 64 + (bs[3] - 0x80) == cp))
  {
    var cp := c as int;
    var q1, r1 := cp / 64, cp % 64;
    var q2, r2 := q1 / 64, q1 % 64;
    var q3, r3 := q2 / 64, q2 % 64;
    assert cp == 64 * q1 + r1 && q1 == 64 * q2 + r2 && q2 == 64 * q3 + r3;
    assert cp / 4096 == q2 && cp / 262144 == q3;
  }

  lemma DecodeHead1(t: string, b0: int)
    requires ByteAt(t, 0) == Some(b0) && b0 < 0x80
    ensures DecodeHead(t) == Some((b0 as char, 1))
  {
  }

  lemma DecodeHead2(t: string, b0: int, b1: int)
    requires ByteAt(t, 0) == Some(b0) && 0xC0 <= b0 < 0xE0
    requires ByteAt(t, 1) == Some(b1) && 0x80 <= b1 < 0xC0
    requires IsScalar((b0 - 0xC0) * 64 + (b1 - 0x80)) && (b0 - 0xC0) * 64 + (b1 - 0x80) >= 0x80
    ensures DecodeHead(t) == Some((((b0 - 0xC0) * 64 + (b1 - 0x80)) as char, 2))
  {
  }

  lemma DecodeHead3(t: string, b0: int, b1: int, b2: int)
    requires ByteAt(t, 0) == Some(b0) && 0xE0 <= b0 < 0xF0
    requires ByteAt(t, 1) == Some(b1) && 0x80 <= b1 < 0xC0
    requires ByteAt(t, 2) == Some(b2) && 0x80 <= b2 < 0xC0
    requires IsScalar((b0 - 0xE0) * 4096 + (b1 - 0x80) * 64 + (b2 - 0x80))
    requires (b0 - 0xE0) * 4096 + (b1 - 0x80) * 64 + (b2 - 0x80) >= 0x800
    ensures DecodeHead(t) == Some((((b0 - 0xE0) * 4096 + (b1 - 0x80) * 64 + (b2 - 0x80)) as char, 3))
  {
  }

  lemma DecodeHead4(t: string, b0: int, b1: int, b2: int, b3: int)
    requires ByteAt(t, 0) == Some(b0) && 0xF0 <= b0 < 0xF8
    requires ByteAt(t, 1) == Some(b1) && 0x80 <= b1 < 0xC0
    requires ByteAt(t, 2) == Some(b2) && 0x80 <= b2 < 0xC0
    requires ByteAt(t, 3) == Some(b3) && 0x80 <= b3 < 0xC0
    requires IsScalar((b0 - 0xF0) * 262144 + (b1 - 0x80) * 4096 + (b2 - 0x80) * 64 + (b3 - 0x80))
    requires (b0 - 0xF0) * 262144 + (b1 - 0x80) * 4096 + (b2 - 0x80) * 64 + (b3 - 0x80) >= 0x10000
    ensures DecodeHead(t) == Some((((b0 - 0xF0) * 262144 + (b1 - 0x80) * 4096 + (b2 - 0x80) * 64 + (b3 - 0x80)) as char, 4))
  {
  }

  /** The head of an encoded character decodes to that character. */
  lemma DecodeHeadChar(c: char, rest: string)
    requires !Unreserved(c)
    ensures DecodeHead(EncodeChar(c) + rest) == Some((c, |Utf8(c)|))
  {
    var bs := Utf8(c);
    var t := EscapeAll(bs) + rest;
    assert EncodeChar(c) == EscapeAll(bs);
    Utf8Payload(c);
    assert IsScalar(c as int);
    ByteAtEscapeAll(bs, rest, 0);
    if |bs| == 1 {
      DecodeHead1(t, bs[0]);
    } else {
      ByteAtEscapeAll(bs, rest, 1);
      if |bs| == 2 {
        DecodeHead2(t, bs[0], bs[1]);
      } else {
        ByteAtEscapeAll(bs, rest, 2);
        if |bs| == 3 {
          DecodeHead3(t, bs[0], bs[1], bs[2]);
        } else {
          ByteAtEscapeAll(bs, rest, 3);
          DecodeHead4(t, bs[0], bs[1], bs[2], bs[3]);
        }
      }
    }
  }

  /** Decoding undoes encoding: `decodeURIComponent(encodeURIComponent(s)) == s`. */
  lemma {:induction false} DecodeEncode(s: string)
    ensures DecodeURIComponent(EncodeURIComponent(s)) == Some(s)
  {
    if s != [] {
      var c := s[0];
      var rest := EncodeURIComponent(s[1..]);
      var t := EncodeChar(c) + rest;
      DecodeEncode(s[1..]);
      assert EncodeURIComponent(s) == t;
      if Unreserved(c) {
        assert t[0] == c && t[1..] == rest;
      } else {
        DecodeHeadChar(c, rest);
        assert |EncodeChar(c)| == 3 * |Utf8(c)|;
        assert t[3 * |Utf8(c)|..] == rest;
      }
      assert [c] + s[1..] == s;
    }
  }

  /** The overlong two-byte form of U+0000 is refused rather than decoded. */
  lemma OverlongRefused()
    ensures DecodeURIComponent("%C0%80") == None
  {
    var t := "%C0%80";
    assert HexValue(t[1]) == Some(12) && HexValue(t[2]) == Some(0);
    assert ByteAt(t, 0) == Some(0xC0);
    assert HexValue(t[4]) == Some(8) && HexValue(t[5]) == Some(0);
    assert ByteAt(t, 1) == Some(0x80);
    assert DecodeHead(t) == None;
  }
}
