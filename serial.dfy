/**
 * The Apple pass serial number `uid-garage` (wallet/apple.js), and the two
 * ways of reading it back: the server's `serial.split('-')` as written, and
 * the corrected split at the last hyphen that the callback handlers use.
 */
module PassSerial {
  import opened JsValues
  import Text

  /** The serial number of the pass for `uid` in `garage`: `${uid}-${garage}`. */
  function SerialNumber(uid: string, garage: Value): (s: string)
    ensures |s| == |uid| + 1 + |ToString(garage)|
    ensures s[..|uid|] == uid && s[|uid|] == '-' && s[|uid| + 1..] == ToString(garage)
  {
    uid + "-" + ToString(garage)
  }

  /** What a callback recovers from a serial; `garage` is `Undefined` when there is no second piece. */
  datatype Decoded = Decoded(uid: string, garage: Value)

  /** As written: `const [uid, garage] = serialNumber.split('-')`. */
  function SplitSerial(serial: string): (d: Decoded)
    ensures '-' !in d.uid && d.uid <= serial
    ensures d.garage.Str? <==> '-' in serial
    ensures d.garage.Str? ==> '-' !in d.garage.s && d.uid + "-" + d.garage.s <= serial
    ensures d.garage.Str? ==> var e := |d.uid| + 1 + |d.garage.s|; e == |serial| || (e < |serial| && serial[e] == '-')
    ensures d.garage.Undefined? ==> d.uid == serial
  {
    var parts := Text.Split(serial, '-');
    Text.FirstPiece(serial, '-');
    if |parts| > 1 then
      SplitPieces(serial);
      Decoded(parts[0], Str(parts[1]))
    else
      Decoded(parts[0], Undefined)
  }

  /** The first two pieces of a serial with a hyphen: hyphen-free, and the second runs up to the next hyphen or the end. */
  lemma SplitPieces(serial: string)
    requires '-' in serial
    ensures var parts := Text.Split(serial, '-');
      var e := |parts[0]| + 1 + |parts[1]|;
      && |parts| > 1
      && '-' !in parts[0] && '-' !in parts[1]
      && parts[0] + "-" + parts[1] <= serial
      && (e == |serial| || (e < |serial| && serial[e] == '-'))
  {
    var parts := Text.Split(serial, '-');
    var i := Text.IndexOf(serial, '-');
    var rest := serial[i + 1..];
    Text.FirstPiece(serial, '-');
    Text.FirstPiece(rest, '-');
    Text.FirstPieceEnds(rest, '-');
    assert parts[0] == serial[..i] && parts[1..] == Text.Split(rest, '-');
    assert serial == parts[0] + "-" + rest;
  }

  /** Corrected: everything before the last hyphen is the uid, everything after it the garage. */
  function DecodeSerial(serial: string): (d: Decoded)
    ensures d.garage.Str? <==> '-' in serial
    ensures d.garage.Str? ==> serial == d.uid + "-" + d.garage.s && '-' !in d.garage.s
    ensures d.garage.Undefined? ==> d.uid == serial
  {
    if '-' in serial then
      var i := Text.LastIndexOf(serial, '-');
      assert serial == serial[..i] + "-" + serial[i + 1..];
      Decoded(serial[..i], Str(serial[i + 1..]))
    else Decoded(serial, Undefined)
  }

  /** The shape `crypto.randomUUID()` produces: groups of 8-4-4-4-12 characters separated by hyphens. */
  predicate IsUuid(s: string) {
    |s| == 36 && forall i :: 0 <= i < 36 ==> (s[i] == '-' <==> i == 8 || i == 13 || i == 18 || i == 23)
  }

  /**
   * As written, a serial reads back as the uid and garage it was made from
   * exactly when neither of them contains a hyphen.
   */
  lemma SplitSerialRoundTripIff(uid: string, garage: string)
    ensures SplitSerial(SerialNumber(uid, Str(garage))) == Decoded(uid, Str(garage))
        <==> '-' !in uid && '-' !in garage
  {
    var s := SerialNumber(uid, Str(garage));
    assert s == uid + ['-'] + garage;
    if '-' !in uid {
      Text.SplitAfterSeparator(uid, '-', garage);
      Text.FirstPieceIsWhole(garage, '-');
    } else {
      var i := Text.IndexOf(s, '-');
      var j :| 0 <= j < |uid| && uid[j] == '-';
      assert s[j] == '-';
      assert i <= j;
      assert |SplitSerial(s).uid| == i < |uid|;
    }
  }

  /** As written, a serial whose uid comes from `randomUUID` reads back as the UUID's first two groups. */
  lemma UuidSerialMisread(uid: string, garage: string)
    requires IsUuid(uid)
    ensures SplitSerial(SerialNumber(uid, Str(garage))) == Decoded(uid[..8], Str(uid[9..13]))
    ensures SplitSerial(SerialNumber(uid, Str(garage))) != Decoded(uid, Str(garage))
  {
    var s := SerialNumber(uid, Str(garage));
    var tail := uid[14..] + "-" + garage;
    assert s == uid[..8] + ['-'] + (uid[9..13] + ['-'] + tail);
    assert '-' !in uid[..8] && '-' !in uid[9..13] by {
      assert forall k :: 0 <= k < 8 ==> uid[..8][k] == uid[k];
      assert forall k :: 0 <= k < 4 ==> uid[9..13][k] == uid[9 + k];
    }
    Text.SplitAfterSeparator(uid[..8], '-', uid[9..13] + ['-'] + tail);
    Text.SplitAfterSeparator(uid[9..13], '-', tail);
  }

  /** Corrected: a serial reads back as its uid and garage whenever the garage has no hyphen. */
  lemma DecodeSerialRoundTrip(uid: string, garage: string)
    requires '-' !in garage
    ensures DecodeSerial(SerialNumber(uid, Str(garage))) == Decoded(uid, Str(garage))
  {
    var s := SerialNumber(uid, Str(garage));
    assert s[|uid|] == '-';
    var i := Text.LastIndexOf(s, '-');
    assert i == |uid|;
    assert s[..i] == uid && s[i + 1..] == garage;
  }
}
