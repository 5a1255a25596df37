/**
 * The claim an NFC tag URL carries and its HMAC check (server.js). The keyed
 * hash is HMAC-SHA256 in the sense of RFC 2104, under the process-wide
 * `TAG_HMAC_SECRET`; it is a parameter `mac` mapping a message to its hex
 * digest, since the digest itself is not modelled.
 */
module TagClaim {
  import opened JsValues
  import Utf8
  import Hex
  import Text

  /** The query fields of a tag URL; any of them may be absent. */
  datatype Claim = Claim(garage: Value, floor: Value, stair: Value, tag: Value, sig: Value)

  /** The signed message `${garage}|${floor}|${stair}|${tag}`; an absent field renders as "undefined". */
  function Message(c: Claim): string {
    ToString(c.garage) + "|" + ToString(c.floor) + "|" + ToString(c.stair) + "|" + ToString(c.tag)
  }

  /** Joining four texts with '|' puts one '|' between neighbours. */
  lemma JoinFour(g: string, f: string, s: string, t: string)
    ensures Text.Join([g, f, s, t], '|') == g + ['|'] + (f + ['|'] + (s + ['|'] + t))
  {
    assert Text.Join([t], '|') == t;
    assert Text.Join([s, t], '|') == s + ['|'] + t by { assert [s, t][1..] == [t]; }
    assert Text.Join([f, s, t], '|') == f + ['|'] + (s + ['|'] + t) by { assert [f, s, t][1..] == [s, t]; }
    assert [g, f, s, t][1..] == [f, s, t];
  }

  /** The signed message is the four rendered fields joined by '|'. */
  lemma MessageIsJoin(c: Claim)
    ensures Message(c) == Text.Join([ToString(c.garage), ToString(c.floor), ToString(c.stair), ToString(c.tag)], '|')
  {
    var g, f, s, t := ToString(c.garage), ToString(c.floor), ToString(c.stair), ToString(c.tag);
    assert Message(c) == g + ['|'] + (f + ['|'] + (s + ['|'] + t));
    JoinFour(g, f, s, t);
  }

  /** The guard before the signature check: garage, floor, tag and sig are present and non-empty, so the first three render as non-empty text. */
  predicate HasRequiredFields(c: Claim): (ok: bool)
    ensures ok ==> ToString(c.garage) != "" && ToString(c.floor) != "" && ToString(c.tag) != ""
  {
    Truthy(c.garage) && Truthy(c.floor) && Truthy(c.tag) && Truthy(c.sig)
  }

  /** What `verifyHmac` does as written: it answers, or `timingSafeEqual` throws a RangeError. */
  datatype Outcome = Accept | Reject | Throw

  /**
   * As written: a falsy `sig` short-circuits to a falsy answer; otherwise the
   * UTF-8 buffers of the hex digest and of `sig` are compared, and buffers of
   * different lengths make the comparison throw instead of answering.
   */
  function VerifyHmacAsWritten(mac: string -> string, c: Claim): (r: Outcome)
    ensures r == Accept <==> Truthy(c.sig) && ToString(c.sig) == mac(Message(c))
    ensures r == Throw <==>
      Truthy(c.sig) && |Utf8.Encode(ToString(c.sig))| != |Utf8.Encode(mac(Message(c)))|
  {
    var h := mac(Message(c));
    if !Truthy(c.sig) then Reject
    else
      var expected, given := Utf8.Encode(h), Utf8.Encode(ToString(c.sig));
      if |expected| != |given| then Throw
      else if expected == given then Utf8.EncodeInjective(h, ToString(c.sig)); Accept
      else Reject
  }

  /** Corrected: buffers of different lengths are a mismatch, so the check always answers. */
  function VerifyHmac(mac: string -> string, c: Claim): (ok: bool)
    ensures ok <==> Truthy(c.sig) && ToString(c.sig) == mac(Message(c))
    ensures ok <==> VerifyHmacAsWritten(mac, c) == Accept
  {
    var h := mac(Message(c));
    var expected, given := Utf8.Encode(h), Utf8.Encode(ToString(c.sig));
    if Truthy(c.sig) && |expected| == |given| && expected == given then
      Utf8.EncodeInjective(h, ToString(c.sig)); true
    else false
  }

  /** Every character of a hex digest is ASCII, so its buffer has one byte per character. */
  lemma HexIsAscii(s: string)
    requires Hex.IsHex(s)
    ensures |Utf8.Encode(s)| == |s|
  {
    assert forall i :: 0 <= i < |s| ==> s[i] as int < 0x80 by {
      forall i | 0 <= i < |s| ensures s[i] as int < 0x80 {
        assert Hex.IsDigit(s[i]);
      }
    }
    Utf8.EncodeAscii(s);
  }

  /**
   * As written, a present signature that is not 64 characters of hex (here
   * the two characters "00") makes the SHA-256 check throw; the corrected
   * check rejects it.
   */
  lemma ShortSignatureThrows(mac: string -> string, c: Claim)
    requires Hex.IsHex(mac(Message(c))) && |mac(Message(c))| == 64
    requires c.sig == Str("00")
    ensures VerifyHmacAsWritten(mac, c) == Throw
    ensures !VerifyHmac(mac, c)
  {
    HexIsAscii(mac(Message(c)));
    HexIsAscii("00");
  }

  /**
   * An absent stair is signed as the text "undefined", the same message as a
   * stair literally named "undefined", and not the message of an empty stair.
   */
  lemma AbsentStairSignedAsUndefined(c: Claim)
    requires c.stair == Undefined
    ensures Message(c) == Message(c.(stair := Str("undefined")))
    ensures Message(c) != Message(c.(stair := Str("")))
  {
    assert |Message(c)| != |Message(c.(stair := Str("")))|;
  }

  /** Four '|'-free texts joined by '|' split back into the same four. */
  lemma {:induction false} SplitFour(g: string, f: string, s: string, t: string)
    requires '|' !in g && '|' !in f && '|' !in s && '|' !in t
    ensures Text.Split(g + ['|'] + (f + ['|'] + (s + ['|'] + t)), '|') == [g, f, s, t]
  {
    Text.SplitAfterSeparator(g, '|', f + ['|'] + (s + ['|'] + t));
    Text.SplitAfterSeparator(f, '|', s + ['|'] + t);
    Text.SplitAfterSeparator(s, '|', t);
    Text.FirstPieceIsWhole(t, '|');
  }

  /** When no field contains '|', the message splits back into exactly the four signed fields. */
  lemma MessageDeterminesFields(c: Claim)
    requires '|' !in ToString(c.garage) && '|' !in ToString(c.floor)
    requires '|' !in ToString(c.stair) && '|' !in ToString(c.tag)
    ensures Text.Split(Message(c), '|')
         == [ToString(c.garage), ToString(c.floor), ToString(c.stair), ToString(c.tag)]
  {
    var g, f, s, t := ToString(c.garage), ToString(c.floor), ToString(c.stair), ToString(c.tag);
    assert Message(c) == g + ['|'] + (f + ['|'] + (s + ['|'] + t));
    SplitFour(g, f, s, t);
  }

  /** A '|' inside a field lets one signature cover two different claims. */
  lemma PipeInFieldIsAmbiguous(stair: Value, tag: Value, sig: Value)
    ensures Message(Claim(Str("a|b"), Str("c"), stair, tag, sig))
         == Message(Claim(Str("a"), Str("b|c"), stair, tag, sig))
  {
  }
}
