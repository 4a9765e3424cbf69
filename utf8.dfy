/**
 * The `[]byte(id)` conversion used for a message key, for ids that are
 * Unicode text: their bytes are the text's UTF-8 encoding. The decoder is
 * the partner of the encoder; the round trip shows that distinct ids give
 * distinct keys.
 */
module Utf8 {
  import opened Common

  /** The encoding of one Unicode scalar value, 1 to 4 bytes. */
  function EncodeScalar(c: char): (r: seq<byte>)
    ensures 1 <= |r| <= 4
    ensures c as int < 0x80 <==> |r| == 1
    ensures |r| == 1 ==> r[0] as int == c as int
  {
    var cp := c as int;
    if cp < 0x80 then [cp as byte]
    else if cp < 0x800 then
      [(0xC0 + cp / 0x40) as byte, (0x80 + cp % 0x40) as byte]
    else if cp < 0x1_0000 then
      [(0xE0 + cp / 0x1000) as byte, (0x80 + cp / 0x40 % 0x40) as byte, (0x80 + cp % 0x40) as byte]
    else
      [(0xF0 + cp / 0x4_0000) as byte, (0x80 + cp / 0x1000 % 0x40) as byte,
       (0x80 + cp / 0x40 % 0x40) as byte, (0x80 + cp % 0x40) as byte]
  }

  /** The bytes of a Go string holding text `s`. */
  function Encode(s: string): (r: seq<byte>)
    ensures |s| <= |r| <= 4 * |s|
    decreases |s|
  {
    if s == [] then [] else EncodeScalar(s[0]) + Encode(s[1..])
  }

  /** How many bytes a sequence starting with lead byte `b` occupies; 0 if `b` cannot lead. */
  function SequenceLength(b: byte): (n: nat)
  {
    if b < 0x80 then 1
    else if 0xC2 <= b < 0xE0 then 2
    else if 0xE0 <= b < 0xF0 then 3
    else if 0xF0 <= b < 0xF5 then 4
    else 0
  }

  predicate IsContinuation(b: byte) { 0x80 <= b < 0xC0 }

  predicate IsScalar(cp: int) { 0 <= cp < 0xD800 || 0xE000 <= cp < 0x11_0000 }

  /** Decodes one complete, well-formed, shortest-form sequence. */
  function DecodeScalar(bs: seq<byte>): (r: Option<char>)
    requires 1 <= |bs| <= 4 && |bs| == SequenceLength(bs[0])
  {
    var cp :=
      if |bs| == 1 then bs[0] as int
      else if |bs| == 2 then (bs[0] as int - 0xC0) * 0x40 + (bs[1] as int - 0x80)
      else if |bs| == 3 then
        (bs[0] as int - 0xE0) * 0x1000 + (bs[1] as int - 0x80) * 0x40 + (bs[2] as int - 0x80)
      else
        (bs[0] as int - 0xF0) * 0x4_0000 + (bs[1] as int - 0x80) * 0x1000
          + (bs[2] as int - 0x80) * 0x40 + (bs[3] as int - 0x80);
    var minimum := if |bs| == 1 then 0 else if |bs| == 2 then 0x80 else if |bs| == 3 then 0x800 else 0x1_0000;
    if (forall i :: 1 <= i < |bs| ==> IsContinuation(bs[i])) && minimum <= cp && IsScalar(cp)
    then Some(cp as char)
    else None
  }

  /** The text of a byte sequence, or None when it is not well-formed UTF-8. */
  function Decode(bs: seq<byte>): (r: Option<string>)
    decreases |bs|
  {
    if bs == [] then Some([])
    else
      var n := SequenceLength(bs[0]);
      if n == 0 || |bs| < n then None
      else match DecodeScalar(bs[..n])
        case None => None
        case Some(c) =>
          match Decode(bs[n..])
          case None => None
          case Some(rest) => Some([c] + rest)
  }

  lemma TwoByteDigits(cp: int)
    requires 0x80 <= cp < 0x800
    ensures 0xC2 <= 0xC0 + cp / 0x40 < 0xE0
    ensures (cp / 0x40) * 0x40 + cp % 0x40 == cp
  {
  }

  lemma ThreeByteDigits(cp: int)
    requires 0x800 <= cp < 0x1_0000
    ensures 0xE0 <= 0xE0 + cp / 0x1000 < 0xF0
    ensures (cp / 0x1000) * 0x1000 + (cp / 0x40 % 0x40) * 0x40 + cp % 0x40 == cp
  {
  }

  lemma FourByteDigits(cp: int)
    requires 0x1_0000 <= cp < 0x11_0000
    ensures 0xF0 <= 0xF0 + cp / 0x4_0000 < 0xF5
    ensures (cp / 0x4_0000) * 0x4_0000 + (cp / 0x1000 % 0x40) * 0x1000
            + (cp / 0x40 % 0x40) * 0x40 + cp % 0x40 == cp
  {
  }

  lemma DecodeEncodeScalar(c: char)
    ensures var e := EncodeScalar(c);
      SequenceLength(e[0]) == |e| && DecodeScalar(e) == Some(c)
  {
    var cp := c as int;
    if 0x80 <= cp < 0x800 {
      TwoByteDigits(cp);
    } else if 0x800 <= cp < 0x1_0000 {
      ThreeByteDigits(cp);
    } else if 0x1_0000 <= cp {
      FourByteDigits(cp);
    }
  }

  /** Decoding the bytes of a string gives the string back. */
  lemma {:induction false} DecodeEncode(s: string)
    ensures Decode(Encode(s)) == Some(s)
    decreases |s|
  {
    if s != [] {
      var e := EncodeScalar(s[0]);
      var bs := Encode(s);
      DecodeEncodeScalar(s[0]);
      assert bs == e + Encode(s[1..]);
      assert bs[..|e|] == e;
      assert bs[|e|..] == Encode(s[1..]);
      DecodeEncode(s[1..]);
      assert [s[0]] + s[1..] == s;
    }
  }

  /** Distinct strings have distinct bytes, so distinct ids give distinct keys. */
  lemma EncodeInjective(s: string, t: string)
    ensures Encode(s) == Encode(t) <==> s == t
  {
    DecodeEncode(s);
    DecodeEncode(t);
  }
}
