/** Lower-case hexadecimal text, as `Buffer.toString('hex')` and `digest('hex')` produce it. */
module Hex {
  import opened Wrappers

  function Digit(n: nat): char
    requires n < 16
  {
    "0123456789abcdef"[n]
  }

  predicate IsDigit(c: char) {
    '0' <= c <= '9' || 'a' <= c <= 'f'
  }

  function DigitValue(c: char): (n: nat)
    requires IsDigit(c)
    ensures n < 16
  {
    if c <= '9' then c as int - '0' as int else c as int - 'a' as int + 10
  }

  /** A string made only of lower-case hex digits. */
  predicate IsHex(s: string) {
    forall i :: 0 <= i < |s| ==> IsDigit(s[i])
  }

  /** `Buffer.from(bytes).toString('hex')`: two digits per byte, high nibble first. */
  function Encode(bs: seq<byte>): (r: string)
    ensures |r| == 2 * |bs| && IsHex(r)
  {
    if bs == [] then []
    else [Digit(bs[0] as int / 16), Digit(bs[0] as int % 16)] + Encode(bs[1..])
  }

  /** Reads hex text back into bytes; fails on odd length or a non-digit. */
  function Decode(s: string): Option<seq<byte>>
    decreases |s|
  {
    if s == [] then Some([])
    else if |s| < 2 || !IsDigit(s[0]) || !IsDigit(s[1]) then None
    else match Decode(s[2..])
      case None => None
      case Some(rest) => Some([(DigitValue(s[0]) * 16 + DigitValue(s[1])) as byte] + rest)
  }

  lemma DigitRoundTrip(n: nat)
    requires n < 16
    ensures IsDigit(Digit(n)) && DigitValue(Digit(n)) == n
  {
  }

  /** Hex text decodes back to the bytes it was made from. */
  lemma {:induction false} DecodeEncode(bs: seq<byte>)
    ensures Decode(Encode(bs)) == Some(bs)
  {
    if bs != [] {
      var b := bs[0] as int;
      DigitRoundTrip(b / 16);
      DigitRoundTrip(b % 16);
      DecodeEncode(bs[1..]);
      var e := Encode(bs);
      assert e[2..] == Encode(bs[1..]);
      assert bs == [bs[0]] + bs[1..];
    }
  }
}
