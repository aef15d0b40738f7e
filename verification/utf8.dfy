/**
 UTF-8 encoding of Unicode scalar values (RFC 3629), as
 `Buffer.from(text, 'utf8')` produces it, and a strict decoder that inverts
 it: the decoder rejects truncated sequences, stray continuation bytes,
 overlong forms, surrogates and values above U+10FFFF, so that encoding and
 decoding are mutually inverse on their whole domains.
 */
module Utf8 {

  import opened Js

  type Byte = b: int | 0 <= b < 256

  predicate IsContinuation(b: Byte) {
    0x80 <= b < 0xC0
  }

  /** A code point that a Dafny `char` can hold: a Unicode scalar value. */
  predicate IsScalar(v: int) {
    (0 <= v < 0xD800) || (0xE000 <= v < 0x11_0000)
  }

  /** The number of bytes UTF-8 uses for a code point. */
  function Width(c: char): nat {
    var v := c as int;
    if v < 0x80 then 1 else if v < 0x800 then 2 else if v < 0x1_0000 then 3 else 4
  }

  /** The UTF-8 bytes of one character. */
  function EncodeChar(c: char): (bs: seq<Byte>)
    ensures |bs| == Width(c)
  {
    var v := c as int;
    if v < 0x80 then [v]
    else if v < 0x800 then [0xC0 + v / 64, 0x80 + v % 64]
    else if v < 0x1_0000 then [0xE0 + v / 4096, 0x80 + (v / 64) % 64, 0x80 + v % 64]
    else [0xF0 + v / 262144, 0x80 + (v / 4096) % 64, 0x80 + (v / 64) % 64, 0x80 + v % 64]
  }

  /** The UTF-8 bytes of a string. */
  function Encode(s: string): (bs: seq<Byte>)
    ensures |bs| >= |s|
    ensures |s| > 0 ==> |bs| > 0
  {
    if |s| == 0 then [] else EncodeChar(s[0]) + Encode(s[1..])
  }

  /**
   Decodes the character at the front of `bs`, with the number of bytes it
   occupies, or `None` when the front is not a well-formed UTF-8 sequence.
   */
  function DecodeFirst(bs: seq<Byte>): (r: Option<(char, nat)>)
    ensures r.Some? ==> 0 < r.value.1 <= |bs| && r.value.1 == Width(r.value.0)
  {
    if |bs| == 0 then None
    else
      var b0: int := bs[0];
      if b0 < 0x80 then Some((b0 as char, 1))
      else if 0xC2 <= b0 < 0xE0 && |bs| >= 2 && IsContinuation(bs[1]) then
        var v := (b0 - 0xC0) * 64 + (bs[1] as int - 0x80);
        Some((v as char, 2))
      else if 0xE0 <= b0 < 0xF0 && |bs| >= 3 && IsContinuation(bs[1]) && IsContinuation(bs[2]) then
        var v := (b0 - 0xE0) * 4096 + (bs[1] as int - 0x80) * 64 + (bs[2] as int - 0x80);
        if 0x800 <= v && IsScalar(v) then Some((v as char, 3)) else None
      else if 0xF0 <= b0 < 0xF5 && |bs| >= 4 && IsContinuation(bs[1]) && IsContinuation(bs[2]) && IsContinuation(bs[3]) then
        var v := (b0 - 0xF0) * 262144 + (bs[1] as int - 0x80) * 4096 + (bs[2] as int - 0x80) * 64 + (bs[3] as int - 0x80);
        if 0x1_0000 <= v < 0x11_0000 then Some((v as char, 4)) else None
      else None
  }

  /** Decodes a whole byte string, or `None` if any part of it is malformed. */
  function Decode(bs: seq<Byte>): Option<string>
    decreases |bs|
  {
    if |bs| == 0 then Some([])
    else
      match DecodeFirst(bs)
      case None => None
      case Some((c, n)) =>
        match Decode(bs[n..])
        case None => None
        case Some(rest) => Some([c] + rest)
  }

  // The arithmetic behind the multi-byte forms, one lemma per width.

  lemma SplitTwo(v: int)
    requires 0x80 <= v < 0x800
    ensures var b0, b1 := 0xC0 + v / 64, 0x80 + v % 64;
            0xC2 <= b0 < 0xE0 && IsContinuation(b1) && (b0 - 0xC0) * 64 + (b1 - 0x80) == v
  {
  }

  lemma SplitThree(v: int)
    requires 0x800 <= v < 0x1_0000
    ensures var b0, b1, b2 := 0xE0 + v / 4096, 0x80 + (v / 64) % 64, 0x80 + v % 64;
            && 0xE0 <= b0 < 0xF0 && IsContinuation(b1) && IsContinuation(b2)
            && (b0 - 0xE0) * 4096 + (b1 - 0x80) * 64 + (b2 - 0x80) == v
  {
  }

  lemma SplitFour(v: int)
    requires 0x1_0000 <= v < 0x11_0000
    ensures var b0, b1, b2, b3 := 0xF0 + v / 262144, 0x80 + (v / 4096) % 64, 0x80 + (v / 64) % 64, 0x80 + v % 64;
            && 0xF0 <= b0 < 0xF5 && IsContinuation(b1) && IsContinuation(b2) && IsContinuation(b3)
            && (b0 - 0xF0) * 262144 + (b1 - 0x80) * 4096 + (b2 - 0x80) * 64 + (b3 - 0x80) == v
  {
    var a, d := v / 64, v % 64;
    var b, c := a / 64, a % 64;
    var e, f := b / 64, b % 64;
    assert v == a * 64 + d;
    assert a == b * 64 + c;
    assert b == e * 64 + f;
    assert v == b * 4096 + (c * 64 + d);
    assert v / 4096 == b;
    assert v == e * 262144 + (f * 4096 + c * 64 + d);
    assert v / 262144 == e;
  }

  lemma JoinTwo(b0: int, b1: int)
    requires 0xC2 <= b0 < 0xE0 && 0x80 <= b1 < 0xC0
    ensures var v := (b0 - 0xC0) * 64 + (b1 - 0x80);
            v / 64 == b0 - 0xC0 && v % 64 == b1 - 0x80
  {
  }

  lemma JoinThree(b0: int, b1: int, b2: int)
    requires 0xE0 <= b0 < 0xF0 && 0x80 <= b1 < 0xC0 && 0x80 <= b2 < 0xC0
    ensures var v := (b0 - 0xE0) * 4096 + (b1 - 0x80) * 64 + (b2 - 0x80);
            v / 4096 == b0 - 0xE0 && (v / 64) % 64 == b1 - 0x80 && v % 64 == b2 - 0x80
  {
  }

  lemma JoinFour(b0: int, b1: int, b2: int, b3: int)
    requires 0xF0 <= b0 < 0xF5 && 0x80 <= b1 < 0xC0 && 0x80 <= b2 < 0xC0 && 0x80 <= b3 < 0xC0
    ensures var v := (b0 - 0xF0) * 262144 + (b1 - 0x80) * 4096 + (b2 - 0x80) * 64 + (b3 - 0x80);
            && v / 262144 == b0 - 0xF0 && (v / 4096) % 64 == b1 - 0x80
            && (v / 64) % 64 == b2 - 0x80 && v % 64 == b3 - 0x80
  {
    var q0, r1, r2, r3 := b0 - 0xF0, b1 - 0x80, b2 - 0x80, b3 - 0x80;
    var v := q0 * 262144 + r1 * 4096 + r2 * 64 + r3;
    var high := q0 * 64 + r1;
    var middle := high * 64 + r2;
    assert v == middle * 64 + r3;
    assert v / 64 == middle && v % 64 == r3;
    assert middle % 64 == r2;
    assert v == high * 4096 + (r2 * 64 + r3);
    assert v / 4096 == high;
    assert high % 64 == r1;
    assert v == q0 * 262144 + (r1 * 4096 + r2 * 64 + r3);
  }

  /** The encoding of one character is decoded back to it, whatever follows. */
  lemma DecodeEncodeChar(c: char, rest: seq<Byte>)
    ensures DecodeFirst(EncodeChar(c) + rest) == Some((c, |EncodeChar(c)|))
  {
    var v := c as int;
    var e := EncodeChar(c);
    var bs := e + rest;
    assert bs[..|e|] == e;
    if v < 0x80 {
    } else if v < 0x800 {
      SplitTwo(v);
    } else if v < 0x1_0000 {
      SplitThree(v);
    } else {
      SplitFour(v);
    }
  }

  /** A well-formed sequence at the front of `bs` is exactly the encoding of the character it decodes to. */
  lemma EncodeDecodeFirst(bs: seq<Byte>)
    requires DecodeFirst(bs).Some?
    ensures bs[..DecodeFirst(bs).value.1] == EncodeChar(DecodeFirst(bs).value.0)
  {
    var (c, n) := DecodeFirst(bs).value;
    if n == 2 {
      JoinTwo(bs[0], bs[1]);
    } else if n == 3 {
      JoinThree(bs[0], bs[1], bs[2]);
    } else if n == 4 {
      JoinFour(bs[0], bs[1], bs[2], bs[3]);
    }
  }

  /** Decoding the encoding of a string gives the string back. */
  lemma {:induction false} DecodeEncode(s: string)
    ensures Decode(Encode(s)) == Some(s)
  {
    if |s| > 0 {
      var head := EncodeChar(s[0]);
      var tail := Encode(s[1..]);
      DecodeEncodeChar(s[0], tail);
      assert (head + tail)[|head|..] == tail;
      DecodeEncode(s[1..]);
      assert [s[0]] + s[1..] == s;
    }
  }

  /** A successful decoding of a non-empty byte string is its first character followed by the decoding of the rest. */
  lemma DecodeStep(bs: seq<Byte>)
    requires |bs| > 0 && Decode(bs).Some?
    ensures DecodeFirst(bs).Some?
    ensures Decode(bs[DecodeFirst(bs).value.1..]).Some?
    ensures Decode(bs).value == [DecodeFirst(bs).value.0] + Decode(bs[DecodeFirst(bs).value.1..]).value
  {
  }

  /** Bytes that start with the encoding of `c` and continue with the encoding of `tail` are the encoding of `[c] + tail`. */
  lemma EncodeCons(bs: seq<Byte>, n: nat, c: char, tail: string)
    requires n <= |bs|
    requires bs[..n] == EncodeChar(c)
    requires bs[n..] == Encode(tail)
    ensures Encode([c] + tail) == bs
  {
    assert ([c] + tail)[1..] == tail;
    assert bs == bs[..n] + bs[n..];
  }

  /** Encoding the decoding of a byte string gives the bytes back: the decoder accepts only canonical UTF-8. */
  lemma {:induction false} EncodeDecode(bs: seq<Byte>)
    requires Decode(bs).Some?
    ensures Encode(Decode(bs).value) == bs
    decreases |bs|
  {
    if |bs| > 0 {
      DecodeStep(bs);
      var first := DecodeFirst(bs).value;
      EncodeDecodeFirst(bs);
      EncodeDecode(bs[first.1..]);
      EncodeCons(bs, first.1, first.0, Decode(bs[first.1..]).value);
    }
  }

  /** Encoding is injective: distinct strings have distinct UTF-8 bytes. */
  lemma EncodeInjective(s: string, t: string)
    requires Encode(s) == Encode(t)
    ensures s == t
  {
    DecodeEncode(s);
    DecodeEncode(t);
  }
}
