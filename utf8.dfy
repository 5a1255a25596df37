/**
 * `Buffer.from(string)`: the UTF-8 encoding of a string of Unicode scalar
 * values. The signature check compares these byte buffers, so their lengths,
 * not the strings' lengths, decide whether `crypto.timingSafeEqual` throws.
 */
module Utf8 {
  import opened Wrappers

  /** The one- to four-byte UTF-8 form of one code point. */
  function EncodeChar(c: char): seq<byte> {
    var cp := c as int;
    if cp < 0x80 then [cp as byte]
    else if cp < 0x800 then [(0xC0 + cp / 64) as byte, (0x80 + cp % 64) as byte]
    else if cp < 0x1_0000 then
      [(0xE0 + cp / 4096) as byte, (0x80 + (cp / 64) % 64) as byte, (0x80 + cp % 64) as byte]
    else
      [(0xF0 + cp / 262144) as byte, (0x80 + (cp / 4096) % 64) as byte,
       (0x80 + (cp / 64) % 64) as byte, (0x80 + cp % 64) as byte]
  }

  /** `Buffer.from(s)` with the default encoding. */
  function Encode(s: string): seq<byte> {
    if s == [] then [] else EncodeChar(s[0]) + Encode(s[1..])
  }

  /** How many bytes a UTF-8 sequence starting with `lead` occupies. */
  function Width(lead: byte): nat {
    if lead < 0x80 then 1 else if lead < 0xE0 then 2 else if lead < 0xF0 then 3 else 4
  }

  /** The code point a well-formed one- to four-byte sequence stands for. */
  function DecodeChar(b: seq<byte>): int
    requires 1 <= |b| <= 4
  {
    if |b| == 1 then b[0] as int
    else if |b| == 2 then (b[0] as int - 0xC0) * 64 + (b[1] as int - 0x80)
    else if |b| == 3 then
      (b[0] as int - 0xE0) * 4096 + (b[1] as int - 0x80) * 64 + (b[2] as int - 0x80)
    else
      (b[0] as int - 0xF0) * 262144 + (b[1] as int - 0x80) * 4096
        + (b[2] as int - 0x80) * 64 + (b[3] as int - 0x80)
  }

  /** The lead byte of a character's encoding announces its length. */
  lemma EncodeCharWidth(c: char)
    ensures 1 <= |EncodeChar(c)| <= 4
    ensures |EncodeChar(c)| == Width(EncodeChar(c)[0])
  {
  }

  /** Decoding a character's encoding gives its code point back. */
  lemma DecodeEncodeChar(c: char)
    ensures 1 <= |EncodeChar(c)| <= 4 && DecodeChar(EncodeChar(c)) == c as int
  {
    var cp := c as int;
    if 0x800 <= cp < 0x1_0000 {
      assert cp / 64 == (cp / 4096) * 64 + (cp / 64) % 64;
    } else if 0x1_0000 <= cp {
      assert cp / 4096 == (cp / 262144) * 64 + (cp / 4096) % 64;
      assert cp / 64 == (cp / 4096) * 64 + (cp / 64) % 64;
    }
  }

  /** No two strings share an encoding: equal buffers come from equal strings. */
  lemma {:induction false} EncodeInjective(a: string, b: string)
    requires Encode(a) == Encode(b)
    ensures a == b
  {
    if a == [] {
      if b != [] { EncodeCharWidth(b[0]); }
    } else {
      EncodeCharWidth(a[0]);
      if b == [] {
      } else {
        var ea, eb := EncodeChar(a[0]), EncodeChar(b[0]);
        EncodeCharWidth(b[0]);
        assert Encode(a)[0] == ea[0] && Encode(b)[0] == eb[0];
        assert |ea| == |eb|;
        assert ea == Encode(a)[..|ea|];
        assert eb == Encode(b)[..|eb|];
        DecodeEncodeChar(a[0]);
        DecodeEncodeChar(b[0]);
        assert Encode(a[1..]) == Encode(a)[|ea|..];
        assert Encode(b[1..]) == Encode(b)[|eb|..];
        EncodeInjective(a[1..], b[1..]);
        assert a == [a[0]] + a[1..] && b == [b[0]] + b[1..];
      }
    }
  }

  /** A string of ASCII characters encodes to one byte per character. */
  lemma {:induction false} EncodeAscii(s: string)
    requires forall i :: 0 <= i < |s| ==> s[i] as int < 0x80
    ensures |Encode(s)| == |s|
  {
    if s != [] {
      EncodeAscii(s[1..]);
    }
  }
}
