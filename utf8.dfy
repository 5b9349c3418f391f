/** UTF-8 as RFC 3629 section 3 defines it: the encoding of a sequence of Unicode
    scalar values into octets, and the strict decoder that accepts exactly the
    octet sequences the encoder can produce (no overlong forms, no surrogates,
    nothing above U+10FFFF). Dafny's `char` is a Unicode scalar value, so every
    `string` has an encoding. */
module Utf8 {
  import opened Wrappers

  newtype byte = x: int | 0 <= x < 256

  /** Continuation octets have the form 10xxxxxx. */
  predicate IsContinuation(b: byte) {
    0x80 <= b < 0xC0
  }

  /** The 1 to 4 octets that encode one scalar value. */
  function EncodeScalar(c: char): (r: seq<byte>)
    ensures 1 <= |r| <= 4
  {
    var cp := c as int;
    var q1 := cp / 64;
    var q2 := q1 / 64;
    var q3 := q2 / 64;
    if cp < 0x80 then
      [cp as byte]
    else if cp < 0x800 then
      [(0xC0 + q1) as byte, (0x80 + cp % 64) as byte]
    else if cp < 0x10000 then
      [(0xE0 + q2) as byte, (0x80 + q1 % 64) as byte, (0x80 + cp % 64) as byte]
    else
      [(0xF0 + q3) as byte, (0x80 + q2 % 64) as byte, (0x80 + q1 % 64) as byte, (0x80 + cp % 64) as byte]
  }

  /** Decodes the scalar value at the front of `s`, giving it with the number
      of octets it occupies, or None when `s` does not start with a well-formed
      UTF-8 sequence. */
  function DecodeScalar(s: seq<byte>): (r: Option<(char, nat)>)
    ensures r.Some? ==> 1 <= r.value.1 <= |s| && r.value.1 <= 4
  {
    if |s| == 0 then None
    else
      var b0 := s[0] as int;
      if b0 < 0x80 then
        Some((b0 as char, 1))
      else if b0 < 0xC2 then
        None
      else if b0 < 0xE0 then
        if |s| < 2 || !IsContinuation(s[1]) then None
        else
          var cp := (b0 - 0xC0) * 64 + (s[1] as int - 0x80);
          Some((cp as char, 2))
      else if b0 < 0xF0 then
        if |s| < 3 || !IsContinuation(s[1]) || !IsContinuation(s[2]) then None
        else
          var cp := ((b0 - 0xE0) * 64 + (s[1] as int - 0x80)) * 64 + (s[2] as int - 0x80);
          if cp < 0x800 || (0xD800 <= cp && cp < 0xE000) then None
          else Some((cp as char, 3))
      else if b0 < 0xF5 then
        if |s| < 4 || !IsContinuation(s[1]) || !IsContinuation(s[2]) || !IsContinuation(s[3]) then None
        else
          var cp := (((b0 - 0xF0) * 64 + (s[1] as int - 0x80)) * 64 + (s[2] as int - 0x80)) * 64 + (s[3] as int - 0x80);
          if cp < 0x10000 || cp > 0x10FFFF then None
          else Some((cp as char, 4))
      else
        None
  }

  /** Swift's `String.data(using: .utf8)` / `"...".utf8`. */
  function Encode(s: string): (r: seq<byte>)
    ensures |s| <= |r| <= 4 * |s|
  {
    if s == [] then [] else EncodeScalar(s[0]) + Encode(s[1..])
  }

  /** The strict decoder of RFC 3629 section 3, standing in for Swift's
      `String(data:encoding: .utf8)`: None for octets that are not UTF-8. */
  function Decode(b: seq<byte>): (r: Option<string>)
    ensures r.Some? ==> |r.value| <= |b|
    decreases |b|
  {
    if b == [] then Some([])
    else
      match DecodeScalar(b)
      case None => None
      case Some((c, n)) =>
        match Decode(b[n..])
        case None => None
        case Some(rest) => Some([c] + rest)
  }

  lemma DecodeEncodeScalar(c: char, tail: seq<byte>)
    ensures DecodeScalar(EncodeScalar(c) + tail) == Some((c, |EncodeScalar(c)|))
  {
    var cp := c as int;
    var e := EncodeScalar(c);
    var s := e + tail;
    assert s[..|e|] == e;
    if cp < 0x80 {
    } else if cp < 0x800 {
      assert s[0] == e[0] && s[1] == e[1];
    } else if cp < 0x10000 {
      assert s[0] == e[0] && s[1] == e[1] && s[2] == e[2];
    } else {
      assert s[0] == e[0] && s[1] == e[1] && s[2] == e[2] && s[3] == e[3];
    }
  }

  lemma EncodeDecodeScalar(s: seq<byte>)
    requires DecodeScalar(s).Some?
    ensures EncodeScalar(DecodeScalar(s).value.0) == s[..DecodeScalar(s).value.1]
  {
    var (c, n) := DecodeScalar(s).value;
    var b0 := s[0] as int;
    var cp := c as int;
    if n == 2 {
      var c1 := s[1] as int - 0x80;
      assert cp == (b0 - 0xC0) * 64 + c1;
      assert cp / 64 == b0 - 0xC0 && cp % 64 == c1;
    } else if n == 3 {
      var c1, c2 := s[1] as int - 0x80, s[2] as int - 0x80;
      var q1 := (b0 - 0xE0) * 64 + c1;
      assert cp == q1 * 64 + c2;
      assert cp / 64 == q1 && cp % 64 == c2;
      assert q1 / 64 == b0 - 0xE0 && q1 % 64 == c1;
    } else if n == 4 {
      var c1, c2, c3 := s[1] as int - 0x80, s[2] as int - 0x80, s[3] as int - 0x80;
      var q2 := (b0 - 0xF0) * 64 + c1;
      var q1 := q2 * 64 + c2;
      assert cp == q1 * 64 + c3;
      assert cp / 64 == q1 && cp % 64 == c3;
      assert q1 / 64 == q2 && q1 % 64 == c2;
      assert q2 / 64 == b0 - 0xF0 && q2 % 64 == c1;
    }
  }

  /** Decoding undoes encoding. */
  lemma {:induction false} DecodeEncode(s: string)
    ensures Decode(Encode(s)) == Some(s)
  {
    if s != [] {
      var e := EncodeScalar(s[0]);
      DecodeEncodeScalar(s[0], Encode(s[1..]));
      assert (e + Encode(s[1..]))[|e|..] == Encode(s[1..]);
      DecodeEncode(s[1..]);
      assert [s[0]] + s[1..] == s;
    }
  }

  /** Whatever decodes is the encoding of what it decodes to: the decoder
      accepts nothing but the encoder's output. */
  lemma {:induction false} EncodeDecode(b: seq<byte>)
    requires Decode(b).Some?
    ensures Encode(Decode(b).value) == b
    decreases |b|
  {
    if b != [] {
      var (c, n) := DecodeScalar(b).value;
      EncodeDecodeScalar(b);
      EncodeDecode(b[n..]);
      var s := Decode(b).value;
      assert s[0] == c && s[1..] == Decode(b[n..]).value;
      assert b[..n] + b[n..] == b;
    }
  }

  /** A string and an octet sequence correspond exactly when one is the
      UTF-8 encoding of the other. */
  lemma DecodeIffEncode(b: seq<byte>, s: string)
    ensures Decode(b) == Some(s) <==> Encode(s) == b
  {
    if Decode(b) == Some(s) {
      EncodeDecode(b);
    }
    if Encode(s) == b {
      DecodeEncode(s);
    }
  }
}
