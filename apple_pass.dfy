/**
 * Building an Apple Wallet pass (wallet/apple.js). The passkit-generator
 * library, the certificates and the archive it streams out are not
 * modelled: `Settings.generate` stands for "build this pass and stream its
 * archive", giving the chunks the stream yields.
 */
module ApplePass {
  import opened Wrappers
  import opened JsValues
  import Hex
  import PassSerial

  datatype Barcode = Barcode(message: string, format: string, messageEncoding: string)

  /** The `overrides` given to `Pass.from`; the three `generic.*` entries are the field values. */
  datatype Overrides = Overrides(
    teamIdentifier: string,
    passTypeIdentifier: string,
    serialNumber: string,
    webServiceURL: string,
    authenticationToken: string,
    primaryFloor: string,
    secondaryStair: string,
    secondaryGarage: Value)

  /** A pass as built from the model: its overrides, and the barcode once one is assigned. */
  datatype Pass = Pass(overrides: Overrides, barcode: Option<Barcode>)

  /** The configuration and the pass generator the server passes in. */
  datatype Settings = Settings(
    teamId: string,
    passTypeId: string,
    webServiceUrl: string,
    generate: Pass -> seq<seq<byte>>)

  /** How many random bytes the authentication token is made from. */
  const TokenBytes := 24

  /** `cryptoRandom(n)`: `n` random bytes (here `values`, what `getRandomValues` filled) as hex. */
  function CryptoRandom(values: seq<byte>): (r: string)
    ensures |r| == 2 * |values| && Hex.IsHex(r)
    ensures Hex.Decode(r) == Some(values)
  {
    Hex.DecodeEncode(values);
    Hex.Encode(values)
  }

  /** The pass `createApplePass` generates, with its barcode assigned. */
  function PassFor(uid: string, garage: Value, floor: Value, stair: Value, s: Settings, entropy: seq<byte>): (p: Pass)
    requires |entropy| == TokenBytes
    ensures p.overrides.serialNumber == PassSerial.SerialNumber(uid, garage)
    ensures p.barcode == Some(Barcode(p.overrides.serialNumber, "PKBarcodeFormatQR", "iso-8859-1"))
    ensures p.overrides.primaryFloor == ToString(floor)
    ensures p.overrides.secondaryStair == OrEmpty(stair)
    ensures p.overrides.secondaryGarage == garage
    ensures p.overrides.teamIdentifier == s.teamId
    ensures p.overrides.passTypeIdentifier == s.passTypeId
    ensures p.overrides.webServiceURL == s.webServiceUrl
    ensures |p.overrides.authenticationToken| == 2 * TokenBytes
  {
    var serialNumber := PassSerial.SerialNumber(uid, garage);
    Pass(
      Overrides(s.teamId, s.passTypeId, serialNumber, s.webServiceUrl, CryptoRandom(entropy),
                ToString(floor), OrEmpty(stair), garage),
      Some(Barcode(serialNumber, "PKBarcodeFormatQR", "iso-8859-1")))
  }

  /** `Buffer.concat(chunks)` */
  function Concat(chunks: seq<seq<byte>>): seq<byte> {
    if chunks == [] then [] else chunks[0] + Concat(chunks[1..])
  }

  /** The archive bytes `createApplePass` returns for these inputs. */
  function PkPass(uid: string, garage: Value, floor: Value, stair: Value, s: Settings, entropy: seq<byte>): seq<byte>
    requires |entropy| == TokenBytes
  {
    Concat(s.generate(PassFor(uid, garage, floor, stair, s, entropy)))
  }

  lemma {:induction false} ConcatAppend(a: seq<seq<byte>>, b: seq<seq<byte>>)
    ensures Concat(a + b) == Concat(a) + Concat(b)
  {
    if a != [] {
      assert (a + b)[1..] == a[1..] + b;
      ConcatAppend(a[1..], b);
    } else {
      assert a + b == b;
    }
  }

  /** Each chunk appears whole in the concatenation, right after the chunks before it. */
  lemma ConcatInOrder(chunks: seq<seq<byte>>, i: nat)
    requires i < |chunks|
    ensures var at := |Concat(chunks[..i])|;
      at + |chunks[i]| <= |Concat(chunks)| && Concat(chunks)[at..at + |chunks[i]|] == chunks[i]
  {
    assert chunks == chunks[..i] + ([chunks[i]] + chunks[i + 1..]);
    ConcatAppend(chunks[..i], [chunks[i]] + chunks[i + 1..]);
    ConcatAppend([chunks[i]], chunks[i + 1..]);
    assert Concat([chunks[i]]) == chunks[i] by {
      assert [chunks[i]][1..] == [];
    }
  }

  /**
   * `createApplePass`: builds the pass with its overrides, assigns the
   * barcode, collects the generated stream chunk by chunk and returns the
   * concatenated archive with the serial number.
   */
  method CreateApplePass(uid: string, garage: Value, floor: Value, stair: Value, s: Settings, entropy: seq<byte>)
    returns (pkpass: seq<byte>, serialNumber: string)
    requires |entropy| == TokenBytes
    ensures serialNumber == PassSerial.SerialNumber(uid, garage)
    ensures pkpass == PkPass(uid, garage, floor, stair, s, entropy)
  {
    serialNumber := PassSerial.SerialNumber(uid, garage);
    var pass := Pass(
      Overrides(s.teamId, s.passTypeId, serialNumber, s.webServiceUrl, CryptoRandom(entropy),
                ToString(floor), OrEmpty(stair), garage),
      None);
    pass := pass.(barcode := Some(Barcode(serialNumber, "PKBarcodeFormatQR", "iso-8859-1")));
    var stream := s.generate(pass);
    var chunks: seq<seq<byte>> := [];
    for i := 0 to |stream|
      invariant chunks == stream[..i]
    {
      chunks := chunks + [stream[i]];
    }
    assert chunks == stream;
    pkpass := Concat(chunks);
  }
}
