/**
 Lowercase hexadecimal rendering of bytes, as `buffer.toString('hex')`
 produces it, and the strict decoder that inverts it (two lowercase digits
 per byte, nothing else).
 */
module Hex {

  import opened Js
  import opened Utf8

  predicate IsHexDigit(c: char) {
    ('0' <= c <= '9') || ('a' <= c <= 'f')
  }

  function ValueOf(c: char): (n: nat)
    requires IsHexDigit(c)
    ensures n < 16
  {
    if c <= '9' then (c as int) - ('0' as int) else (c as int) - ('a' as int) + 10
  }

  function DigitOf(n: nat): (c: char)
    requires n < 16
    ensures IsHexDigit(c)
    ensures ValueOf(c) == n
  {
    if n < 10 then ((n + '0' as int) as char) else ((n - 10 + 'a' as int) as char)
  }

  /** Each digit character is the rendering of its own value. */
  lemma DigitOfValueOf(c: char)
    requires IsHexDigit(c)
    ensures DigitOf(ValueOf(c)) == c
  {
  }

  /** The two digits of one byte, high nibble first. */
  function EncodeByte(b: Byte): (s: string)
    ensures |s| == 2 && IsHexDigit(s[0]) && IsHexDigit(s[1])
    ensures ValueOf(s[0]) * 16 + ValueOf(s[1]) == b
  {
    [DigitOf(b / 16), DigitOf(b % 16)]
  }

  /** `Buffer.from(bytes).toString('hex')`. */
  function Encode(bs: seq<Byte>): (s: string)
    ensures |s| == 2 * |bs|
    ensures forall i :: 0 <= i < |s| ==> IsHexDigit(s[i])
  {
    if |bs| == 0 then "" else EncodeByte(bs[0]) + Encode(bs[1..])
  }

  /** The bytes a lowercase hex string spells, or `None` for an odd length or a foreign character. */
  function Decode(s: string): (r: Option<seq<Byte>>)
    ensures r.Some? ==> |s| == 2 * |r.value|
    decreases |s|
  {
    if |s| == 0 then Some([])
    else if |s| == 1 || !IsHexDigit(s[0]) || !IsHexDigit(s[1]) then None
    else
      match Decode(s[2..])
      case None => None
      case Some(rest) => Some([ValueOf(s[0]) * 16 + ValueOf(s[1])] + rest)
  }

  /** Decoding the rendering of bytes gives the bytes back. */
  lemma {:induction false} DecodeEncode(bs: seq<Byte>)
    ensures Decode(Encode(bs)) == Some(bs)
  {
    if |bs| > 0 {
      var s := Encode(bs);
      assert s[2..] == Encode(bs[1..]);
      DecodeEncode(bs[1..]);
      assert [bs[0]] + bs[1..] == bs;
    }
  }

  /** Rendering the decoding of a string gives the string back: the decoder accepts only lowercase hex. */
  lemma {:induction false} EncodeDecode(s: string)
    requires Decode(s).Some?
    ensures Encode(Decode(s).value) == s
    decreases |s|
  {
    if |s| > 0 {
      var bs := Decode(s).value;
      EncodeDecode(s[2..]);
      var b := ValueOf(s[0]) * 16 + ValueOf(s[1]);
      assert bs == [b] + Decode(s[2..]).value;
      assert bs[0] == b && bs[1..] == Decode(s[2..]).value;
      assert b / 16 == ValueOf(s[0]) && b % 16 == ValueOf(s[1]);
      DigitOfValueOf(s[0]);
      DigitOfValueOf(s[1]);
      assert EncodeByte(b) == s[..2];
      assert s == s[..2] + s[2..];
    }
  }
}
