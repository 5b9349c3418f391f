/** Base 64 encoding as section 4 of RFC 4648 defines it (the standard
    alphabet, "=" padding), the form Foundation's `base64EncodedString()`
    produces, together with its inverse: a decoder that accepts exactly the
    canonical encodings (section 3.5 of RFC 4648: pad bits must be zero). */
module Base64 {
  import opened Wrappers
  import Utf8

  type byte = Utf8.byte

  type sextet = x: int | 0 <= x < 64

  /** Table 1 of RFC 4648: the character for each 6-bit value. */
  function Digit(v: sextet): (c: char)
    ensures c != '='
  {
    if v < 26 then ('A' as int + v) as char
    else if v < 52 then ('a' as int + (v - 26)) as char
    else if v < 62 then ('0' as int + (v - 52)) as char
    else if v == 62 then '+'
    else '/'
  }

  /** The 6-bit value of an alphabet character, None for any other character. */
  function DigitValue(c: char): (r: Option<sextet>)
  {
    if 'A' <= c <= 'Z' then Some(c as int - 'A' as int)
    else if 'a' <= c <= 'z' then Some(c as int - 'a' as int + 26)
    else if '0' <= c <= '9' then Some(c as int - '0' as int + 52)
    else if c == '+' then Some(62)
    else if c == '/' then Some(63)
    else None
  }

  predicate InAlphabet(c: char) {
    DigitValue(c).Some?
  }

  lemma DigitValueOfDigit(v: sextet)
    ensures DigitValue(Digit(v)) == Some(v)
  {
  }

  lemma DigitOfDigitValue(c: char)
    requires DigitValue(c).Some?
    ensures Digit(DigitValue(c).value) == c
  {
  }

  /** Every input group of 24 bits becomes four characters; a final group of
      one or two octets is padded with "==" or "=". */
  function Encode(b: seq<byte>): (r: string)
    decreases |b|
  {
    if |b| == 0 then ""
    else if |b| == 1 then
      var b0 := b[0] as int;
      [Digit(b0 / 4), Digit(b0 % 4 * 16), '=', '=']
    else if |b| == 2 then
      var b0, b1 := b[0] as int, b[1] as int;
      [Digit(b0 / 4), Digit(b0 % 4 * 16 + b1 / 16), Digit(b1 % 16 * 4), '=']
    else
      var b0, b1, b2 := b[0] as int, b[1] as int, b[2] as int;
      [Digit(b0 / 4), Digit(b0 % 4 * 16 + b1 / 16), Digit(b1 % 16 * 4 + b2 / 64), Digit(b2 % 64)]
        + Encode(b[3..])
  }

  /** The three octets carried by four sextets (24 bits, most significant first). */
  function Octet0(v0: sextet, v1: sextet): byte { (v0 as int * 4 + v1 as int / 16) as byte }
  function Octet1(v1: sextet, v2: sextet): byte { (v1 as int % 16 * 16 + v2 as int / 4) as byte }
  function Octet2(v2: sextet, v3: sextet): byte { (v2 as int % 4 * 64 + v3 as int) as byte }

  /** Reassembles the octets of one four-character group: four digits carry
      three octets, "xx==" one and "xxx=" two. The bits a padded group does
      not use must be zero. */
  function DecodeGroup(g: string): (r: Option<seq<byte>>)
    requires |g| == 4
    ensures r.Some? ==> 1 <= |r.value| <= 3
  {
    var d0, d1, d2, d3 := DigitValue(g[0]), DigitValue(g[1]), DigitValue(g[2]), DigitValue(g[3]);
    if d0.None? || d1.None? then None
    else if g[2] == '=' && g[3] == '=' then
      if d1.value % 16 == 0 then Some([Octet0(d0.value, d1.value)]) else None
    else if d2.None? then None
    else if g[3] == '=' then
      if d2.value % 4 == 0 then Some([Octet0(d0.value, d1.value), Octet1(d1.value, d2.value)]) else None
    else if d3.None? then None
    else Some([Octet0(d0.value, d1.value), Octet1(d1.value, d2.value), Octet2(d2.value, d3.value)])
  }

  /** Decodes a padded encoding; None when the text is not one. Padding is
      accepted only in the last group. */
  function Decode(s: string): (r: Option<seq<byte>>)
    decreases |s|
  {
    if |s| == 0 then Some([])
    else if |s| < 4 then None
    else
      match DecodeGroup(s[..4])
      case None => None
      case Some(g) =>
        if |g| < 3 then (if |s| == 4 then Some(g) else None)
        else
          match Decode(s[4..])
          case None => None
          case Some(rest) => Some(g + rest)
  }

  /** The encoding is four characters for every started group of three
      octets, and every character is from the alphabet or is padding. */
  lemma {:induction false} EncodeShape(b: seq<byte>)
    ensures |Encode(b)| == 4 * ((|b| + 2) / 3)
    ensures forall i :: 0 <= i < |Encode(b)| ==> InAlphabet(Encode(b)[i]) || Encode(b)[i] == '='
    decreases |b|
  {
    forall v: sextet ensures InAlphabet(Digit(v)) {
      DigitValueOfDigit(v);
    }
    if |b| >= 3 {
      EncodeShape(b[3..]);
      EncodeFront(b);
      var e := Encode(b);
      assert e == e[..4] + e[4..];
    }
  }

  /** Splitting three octets into sextets and reassembling them is the identity. */
  lemma OctetsOfSextets(b0: byte, b1: byte, b2: byte)
    ensures Octet0(b0 as int / 4, b0 as int % 4 * 16 + b1 as int / 16) == b0
    ensures Octet1(b0 as int % 4 * 16 + b1 as int / 16, b1 as int % 16 * 4 + b2 as int / 64) == b1
    ensures Octet2(b1 as int % 16 * 4 + b2 as int / 64, b2 as int % 64) == b2
  {
    var v1 := b0 as int % 4 * 16 + b1 as int / 16;
    var v2 := b1 as int % 16 * 4 + b2 as int / 64;
    assert v1 / 16 == b0 as int % 4 && v1 % 16 == b1 as int / 16;
    assert v2 / 4 == b1 as int % 16 && v2 % 4 == b2 as int / 64;
  }

  lemma DecodeDigits(v0: sextet, v1: sextet, v2: sextet, v3: sextet)
    ensures v1 % 16 == 0 ==> DecodeGroup([Digit(v0), Digit(v1), '=', '=']) == Some([Octet0(v0, v1)])
    ensures v2 % 4 == 0 ==> DecodeGroup([Digit(v0), Digit(v1), Digit(v2), '=']) == Some([Octet0(v0, v1), Octet1(v1, v2)])
    ensures DecodeGroup([Digit(v0), Digit(v1), Digit(v2), Digit(v3)])
         == Some([Octet0(v0, v1), Octet1(v1, v2), Octet2(v2, v3)])
  {
    DigitValueOfDigit(v0);
    DigitValueOfDigit(v1);
    DigitValueOfDigit(v2);
    DigitValueOfDigit(v3);
  }

  lemma DecodeFinalGroup(b: seq<byte>)
    requires 1 <= |b| <= 2
    ensures DecodeGroup(Encode(b)) == Some(b)
  {
    var b0 := b[0] as int;
    var v0: sextet := b0 / 4;
    if |b| == 1 {
      var v1: sextet := b0 % 4 * 16;
      OctetsOfSextets(b[0], 0, 0);
      DecodeDigits(v0, v1, 0, 0);
      assert Encode(b) == [Digit(v0), Digit(v1), '=', '='];
      assert b == [Octet0(v0, v1)];
    } else {
      var b1 := b[1] as int;
      var v1: sextet := b0 % 4 * 16 + b1 / 16;
      var v2: sextet := b1 % 16 * 4;
      OctetsOfSextets(b[0], b[1], 0);
      DecodeDigits(v0, v1, v2, 0);
      assert Encode(b) == [Digit(v0), Digit(v1), Digit(v2), '='];
      assert b == [Octet0(v0, v1), Octet1(v1, v2)];
    }
  }

  lemma EncodeFront(b: seq<byte>)
    requires |b| >= 3
    ensures Encode(b)[..4] == [Digit(b[0] as int / 4), Digit(b[0] as int % 4 * 16 + b[1] as int / 16),
                               Digit(b[1] as int % 16 * 4 + b[2] as int / 64), Digit(b[2] as int % 64)]
    ensures Encode(b)[4..] == Encode(b[3..])
  {
  }

  lemma DecodeFullGroup(b0: byte, b1: byte, b2: byte)
    ensures DecodeGroup([Digit(b0 as int / 4), Digit(b0 as int % 4 * 16 + b1 as int / 16),
                         Digit(b1 as int % 16 * 4 + b2 as int / 64), Digit(b2 as int % 64)]) == Some([b0, b1, b2])
  {
    var v0: sextet := b0 as int / 4;
    var v1: sextet := b0 as int % 4 * 16 + b1 as int / 16;
    var v2: sextet := b1 as int % 16 * 4 + b2 as int / 64;
    var v3: sextet := b2 as int % 64;
    OctetsOfSextets(b0, b1, b2);
    DecodeDigits(v0, v1, v2, v3);
  }

  /** Decoding recovers the encoded octets. */
  lemma {:induction false} DecodeEncode(b: seq<byte>)
    ensures Decode(Encode(b)) == Some(b)
    decreases |b|
  {
    var e := Encode(b);
    if 1 <= |b| <= 2 {
      DecodeFinalGroup(b);
      assert e[..4] == e;
    } else if |b| >= 3 {
      EncodeFront(b);
      DecodeFullGroup(b[0], b[1], b[2]);
      assert b[..3] == [b[0], b[1], b[2]];
      DecodeEncode(b[3..]);
      assert b[..3] + b[3..] == b;
    }
  }

  /** Reassembling four sextets into octets and splitting them again is the
      identity. */
  lemma SextetsOfOctets(v0: sextet, v1: sextet, v2: sextet, v3: sextet)
    ensures Octet0(v0, v1) as int / 4 == v0
    ensures Octet0(v0, v1) as int % 4 * 16 + Octet1(v1, v2) as int / 16 == v1
    ensures Octet1(v1, v2) as int % 16 * 4 + Octet2(v2, v3) as int / 64 == v2
    ensures Octet2(v2, v3) as int % 64 == v3
  {
    var b0, b1, b2 := v0 as int * 4 + v1 as int / 16, v1 as int % 16 * 16 + v2 as int / 4, v2 as int % 4 * 64 + v3 as int;
    assert b0 / 4 == v0 && b0 % 4 == v1 as int / 16;
    assert b1 / 16 == v1 as int % 16 && b1 % 16 == v2 as int / 4;
    assert b2 / 64 == v2 as int % 4 && b2 % 64 == v3 as int;
  }

  /** A group that decodes is the encoding of its octets. */
  lemma EncodeDecodedGroup(g: string, tail: seq<byte>)
    requires |g| == 4 && DecodeGroup(g).Some?
    requires |DecodeGroup(g).value| < 3 ==> tail == []
    ensures Encode(DecodeGroup(g).value + tail)[..4] == g
  {
    var o := DecodeGroup(g).value;
    var v0, v1 := DigitValue(g[0]).value, DigitValue(g[1]).value;
    DigitOfDigitValue(g[0]);
    DigitOfDigitValue(g[1]);
    if |o| == 1 {
      SextetsOfOctets(v0, v1, 0, 0);
      assert o + tail == [Octet0(v0, v1)];
      assert g == [Digit(v0), Digit(v1), '=', '='];
    } else {
      var v2 := DigitValue(g[2]).value;
      DigitOfDigitValue(g[2]);
      if |o| == 2 {
        SextetsOfOctets(v0, v1, v2, 0);
        assert o + tail == [Octet0(v0, v1), Octet1(v1, v2)];
        assert g == [Digit(v0), Digit(v1), Digit(v2), '='];
      } else {
        var v3 := DigitValue(g[3]).value;
        DigitOfDigitValue(g[3]);
        SextetsOfOctets(v0, v1, v2, v3);
        var b := o + tail;
        assert b[0] == Octet0(v0, v1) && b[1] == Octet1(v1, v2) && b[2] == Octet2(v2, v3);
        EncodeFront(b);
        assert g == [Digit(v0), Digit(v1), Digit(v2), Digit(v3)];
      }
    }
  }

  /** Whatever decodes is the encoding of what it decodes to: the decoder
      accepts nothing but the encoder's output. */
  lemma {:induction false} EncodeDecode(s: string)
    requires Decode(s).Some?
    ensures Encode(Decode(s).value) == s
    decreases |s|
  {
    if |s| > 0 {
      var o := DecodeGroup(s[..4]).value;
      var b := Decode(s).value;
      if |o| < 3 {
        EncodeDecodedGroup(s[..4], []);
        assert o + [] == o == b;
        EncodeShape(b);
        assert Encode(b) == Encode(b)[..4];
        assert s == s[..4];
      } else {
        var rest := Decode(s[4..]).value;
        assert b == o + rest;
        EncodeDecodedGroup(s[..4], rest);
        EncodeDecode(s[4..]);
        assert |b| >= 3 && b[3..] == rest;
        EncodeFront(b);
        assert Encode(b) == Encode(b)[..4] + Encode(b)[4..];
        assert s == s[..4] + s[4..];
      }
    }
  }

  /** Text and octets correspond exactly when the text is the encoding of
      the octets. */
  lemma DecodeIffEncode(s: string, b: seq<byte>)
    ensures Decode(s) == Some(b) <==> Encode(b) == s
  {
    if Decode(s) == Some(b) {
      EncodeDecode(s);
    }
    if Encode(b) == s {
      DecodeEncode(b);
    }
  }
}
