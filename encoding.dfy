/**
 * The two byte/text conversions of Node's `Buffer` that the token signer
 * relies on: `Buffer.from(s, 'utf8')` (UTF-8, RFC 3629) and
 * `buf.toString('hex')` (two lower-case hexadecimal digits per byte).
 * Text is a sequence of Unicode scalar values.
 */
module Encoding {
  import opened Wrappers

  type byte = x: int | 0 <= x < 256

  // ---------------------------------------------------------------- UTF-8

  /** The UTF-8 encoding of one scalar value (RFC 3629, section 3). */
  function EncodeScalar(c: char): (r: seq<byte>)
    ensures 1 <= |r| <= 4
  {
    var n := c as int;
    if n < 0x80 then [n]
    else if n < 0x800 then [0xC0 + n / 0x40, 0x80 + n % 0x40]
    else if n < 0x1_0000 then [0xE0 + n / 0x1000, 0x80 + (n / 0x40) % 0x40, 0x80 + n % 0x40]
    else [0xF0 + n / 0x4_0000, 0x80 + (n / 0x1000) % 0x40, 0x80 + (n / 0x40) % 0x40, 0x80 + n % 0x40]
  }

  /** `Buffer.from(s, 'utf8')`. */
  function Utf8Encode(s: string): (r: seq<byte>)
    ensures |s| <= |r| <= 4 * |s|
  {
    if s == [] then [] else EncodeScalar(s[0]) + Utf8Encode(s[1..])
  }

  predicate IsContinuation(x: byte) { 0x80 <= x < 0xC0 }

  /**
   * Reads one well-formed UTF-8 sequence at the head of `b`: the scalar
   * value and the number of bytes it takes. Overlong forms, surrogates and
   * values above U+10FFFF are rejected.
   */
  function DecodeScalar(b: seq<byte>): (r: Option<(char, nat)>)
    ensures r.Some? ==> 1 <= r.value.1 <= |b| && r.value.1 <= 4
  {
    if |b| == 0 then None
    else if b[0] < 0x80 then Some((b[0] as char, 1))
    else if 0xC0 <= b[0] < 0xE0 && |b| >= 2 && IsContinuation(b[1]) then
      var v: int := (b[0] as int - 0xC0) * 0x40 + (b[1] as int - 0x80);
      if v < 0x80 then None else Some((v as char, 2))
    else if 0xE0 <= b[0] < 0xF0 && |b| >= 3 && IsContinuation(b[1]) && IsContinuation(b[2]) then
      var v: int := (b[0] as int - 0xE0) * 0x1000 + (b[1] as int - 0x80) * 0x40 + (b[2] as int - 0x80);
      if v < 0x800 || 0xD800 <= v < 0xE000 then None else Some((v as char, 3))
    else if 0xF0 <= b[0] < 0xF8 && |b| >= 4 && IsContinuation(b[1]) && IsContinuation(b[2]) && IsContinuation(b[3]) then
      var v: int := (b[0] as int - 0xF0) * 0x4_0000 + (b[1] as int - 0x80) * 0x1000 + (b[2] as int - 0x80) * 0x40 + (b[3] as int - 0x80);
      if v < 0x1_0000 || v > 0x10_FFFF then None else Some((v as char, 4))
    else None
  }

  /** Strict UTF-8 decoding: `None` when `b` is not well-formed UTF-8. */
  function Utf8Decode(b: seq<byte>): (r: Option<string>)
    ensures r.Some? ==> |r.value| <= |b|
    decreases |b|
  {
    if b == [] then Some([])
    else match DecodeScalar(b)
      case None => None
      case Some((c, k)) =>
        match Utf8Decode(b[k..])
        case None => None
        case Some(s) => Some([c] + s)
  }

  /** Decoding the head of an encoded scalar gives back that scalar, whatever follows it. */
  lemma DecodeEncodeScalar(c: char, rest: seq<byte>)
    ensures DecodeScalar(EncodeScalar(c) + rest) == Some((c, |EncodeScalar(c)|))
  {
    var n := c as int;
    if n < 0x80 {
      assert (EncodeScalar(c) + rest)[0] == n;
    } else if n < 0x800 {
      DecodeTwo(c, rest);
    } else if n < 0x1_0000 {
      DecodeThree(c, rest);
    } else {
      DecodeFour(c, rest);
    }
  }

  lemma DecodeTwo(c: char, rest: seq<byte>)
    requires 0x80 <= c as int < 0x800
    ensures DecodeScalar(EncodeScalar(c) + rest) == Some((c, 2))
  {
    var n := c as int;
    var b := EncodeScalar(c) + rest;
    assert b[0] == 0xC0 + n / 0x40 && b[1] == 0x80 + n % 0x40;
    assert (b[0] as int - 0xC0) * 0x40 + (b[1] as int - 0x80) == n;
  }

  lemma DecodeThree(c: char, rest: seq<byte>)
    requires 0x800 <= c as int < 0x1_0000
    ensures DecodeScalar(EncodeScalar(c) + rest) == Some((c, 3))
  {
    var n := c as int;
    var b := EncodeScalar(c) + rest;
    var q := n / 0x40;
    assert n == q * 0x40 + n % 0x40;
    assert q == (q / 0x40) * 0x40 + q % 0x40;
    assert n / 0x1000 == q / 0x40;
    assert b[0] == 0xE0 + n / 0x1000 && b[1] == 0x80 + q % 0x40 && b[2] == 0x80 + n % 0x40;
    assert (b[0] as int - 0xE0) * 0x1000 + (b[1] as int - 0x80) * 0x40 + (b[2] as int - 0x80) == n;
  }

  lemma DecodeFour(c: char, rest: seq<byte>)
    requires 0x1_0000 <= c as int
    ensures DecodeScalar(EncodeScalar(c) + rest) == Some((c, 4))
  {
    var n := c as int;
    var b := EncodeScalar(c) + rest;
    var q := n / 0x40;
    var p := q / 0x40;
    assert n == q * 0x40 + n % 0x40;
    assert q == p * 0x40 + q % 0x40;
    assert p == (p / 0x40) * 0x40 + p % 0x40;
    assert n / 0x1000 == p;
    assert n / 0x4_0000 == p / 0x40;
    assert b[0] == 0xF0 + p / 0x40 && b[1] == 0x80 + p % 0x40;
    assert b[2] == 0x80 + q % 0x40 && b[3] == 0x80 + n % 0x40;
    assert (b[0] as int - 0xF0) * 0x4_0000 + (b[1] as int - 0x80) * 0x1000 + (b[2] as int - 0x80) * 0x40 + (b[3] as int - 0x80) == n;
  }

  /** UTF-8 encoding can be undone: decoding an encoded string gives the string back. */
  lemma {:induction false} Utf8RoundTrip(s: string)
    ensures Utf8Decode(Utf8Encode(s)) == Some(s)
  {
    if s != [] {
      var e := EncodeScalar(s[0]);
      var rest := Utf8Encode(s[1..]);
      DecodeEncodeScalar(s[0], rest);
      assert (e + rest)[|e|..] == rest;
      Utf8RoundTrip(s[1..]);
      assert [s[0]] + s[1..] == s;
    }
  }

  /** Encoding a concatenation is concatenating the encodings: no separator, nothing in between. */
  lemma {:induction false} Utf8Concat(a: string, b: string)
    ensures Utf8Encode(a + b) == Utf8Encode(a) + Utf8Encode(b)
  {
    if a == [] {
      assert a + b == b;
    } else {
      var ab := a + b;
      assert ab[0] == a[0] && ab[1..] == a[1..] + b;
      Utf8Concat(a[1..], b);
      calc {
        Utf8Encode(ab);
        EncodeScalar(a[0]) + Utf8Encode(a[1..] + b);
        EncodeScalar(a[0]) + (Utf8Encode(a[1..]) + Utf8Encode(b));
        (EncodeScalar(a[0]) + Utf8Encode(a[1..])) + Utf8Encode(b);
        Utf8Encode(a) + Utf8Encode(b);
      }
    }
  }

  /** Different strings have different encodings. */
  lemma Utf8Injective(a: string, b: string)
    requires Utf8Encode(a) == Utf8Encode(b)
    ensures a == b
  {
    Utf8RoundTrip(a);
    Utf8RoundTrip(b);
  }

  // ------------------------------------------------------------------ hex

  /** The digit of value `n` in lower-case hexadecimal. */
  function HexDigit(n: nat): (c: char)
    requires n < 16
    ensures IsHexDigit(c)
  {
    if n < 10 then ('0' as int + n) as char else ('a' as int + n - 10) as char
  }

  predicate IsHexDigit(c: char) { '0' <= c <= '9' || 'a' <= c <= 'f' }

  /** `buf.toString('hex')`: two lower-case digits per byte, high nibble first. */
  function HexEncode(b: seq<byte>): (r: string)
    ensures |r| == 2 * |b|
    ensures forall i :: 0 <= i < |r| ==> IsHexDigit(r[i])
  {
    if b == [] then ""
    else [HexDigit(b[0] / 16), HexDigit(b[0] % 16)] + HexEncode(b[1..])
  }

  function HexDigitValue(c: char): (r: Option<nat>)
    ensures r.Some? <==> IsHexDigit(c)
    ensures r.Some? ==> r.value < 16 && HexDigit(r.value) == c
  {
    if '0' <= c <= '9' then Some(c as int - '0' as int)
    else if 'a' <= c <= 'f' then Some(c as int - 'a' as int + 10)
    else None
  }

  /** Reads back a string of lower-case hexadecimal digit pairs. */
  function HexDecode(s: string): (r: Option<seq<byte>>)
    ensures r.Some? ==> 2 * |r.value| == |s|
    decreases |s|
  {
    if s == [] then Some([])
    else if |s| == 1 then None
    else match (HexDigitValue(s[0]), HexDigitValue(s[1]), HexDecode(s[2..]))
      case (Some(hi), Some(lo), Some(rest)) => Some([hi * 16 + lo] + rest)
      case _ => None
  }

  /** The hex form of a signature determines the signature. */
  lemma {:induction false} HexRoundTrip(b: seq<byte>)
    ensures HexDecode(HexEncode(b)) == Some(b)
  {
    if b != [] {
      var hi, lo := b[0] / 16, b[0] % 16;
      var t := HexEncode(b[1..]);
      var s := [HexDigit(hi), HexDigit(lo)] + t;
      assert HexEncode(b) == s;
      assert s[0] == HexDigit(hi) && s[1] == HexDigit(lo) && s[2..] == t;
      assert HexDigitValue(HexDigit(hi)) == Some(hi);
      assert HexDigitValue(HexDigit(lo)) == Some(lo);
      HexRoundTrip(b[1..]);
      assert HexDecode(s) == Some([hi * 16 + lo] + b[1..]);
      assert [b[0]] + b[1..] == b;
    }
  }
}
