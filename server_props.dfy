/**
 * Properties of the server's handlers that relate several requests or
 * pin down one branch: Google linkage, replays, last write, pulls after
 * scans, the registration lifecycle, and end-to-end scans. Lemmas about
 * `Scan`, `CallbackKey` and `SplitSerial` describe the handlers as written;
 * those about `ScanCorrected`, `CallbackKeyCorrected` and `DecodeSerial`
 * describe them as evidently intended.
 */
module ServerProperties {
  import opened Wrappers
  import opened JsValues
  import opened Store
  import opened Server
  import TagClaim
  import PassSerial
  import ApplePass
  import GooglePass

  /**
   * On Android a scan links the Google object the first time and patches the
   * linked object with the scanned floor and stair afterwards, never both;
   * other devices leave the Google linkage alone.
   */
  lemma GoogleLinkageExclusive(st: State, cfg: Config, req: ScanRequest, freshUuid: string, now: int)
    requires Accepted(cfg, req.claim)
    ensures var key := ScanKey(req, freshUuid);
      var before := StoredOrNew(st, key);
      var c := req.claim;
      var r := Scan(st, cfg, req, freshUuid, now);
      var android := IsAndroid(OrEmpty(req.userAgent));
      && (android && !Linked(before.googleObjectId) ==>
            r.st.users[key].googleObjectId == Some(ObjectId(cfg.issuerId, key.uid, key.garage))
            && r.resp.patch.None?)
      && (android && Linked(before.googleObjectId) ==>
            r.st.users[key] == before
            && r.resp.patch == Some(GooglePass.GoogleUpdateObject(before.googleObjectId.value, c.garage, c.floor, c.stair)))
      && (!android ==> r.st.users[key] == before && r.resp.patch.None?)
  {
  }

  /**
   * The corrections to the scan handler change only its answer: the store
   * is the same on every input, and an accepted scan sets the same cookie,
   * shows the same heading and map link and sends the same patch.
   */
  lemma CorrectionsKeepStore(st: State, cfg: Config, req: ScanRequest, freshUuid: string, now: int)
    ensures ScanCorrected(st, cfg, req, freshUuid, now).st == Scan(st, cfg, req, freshUuid, now).st
    ensures Accepted(cfg, req.claim) ==>
      var a := Scan(st, cfg, req, freshUuid, now).resp;
      var b := ScanCorrected(st, cfg, req, freshUuid, now).resp;
      a.Saved? && b.Saved? && a.setCookie == b.setCookie && a.patch == b.patch
      && a.page.heading == b.page.heading && a.page.mapLink == b.page.mapLink
  {
  }

  /** A tag whose signature differs in length from the digest gets no answer as written, and a 400 once corrected. */
  lemma RaisedOnlyAsWritten(st: State, cfg: Config, req: ScanRequest, freshUuid: string, now: int)
    requires Raises(cfg, req.claim)
    ensures Scan(st, cfg, req, freshUuid, now) == ScanStep(st, Raised)
    ensures ScanCorrected(st, cfg, req, freshUuid, now) == ScanStep(st, BadTag)
  {
  }

  /** Recording the same scan twice leaves the store as recording the later one alone. */
  lemma RecordTwice(st: State, key: Key, spot1: Spot, spot2: Spot, android: bool, objectId: string)
    requires objectId != ""
    ensures RecordScan(RecordScan(st, key, spot1, android, objectId).st, key, spot2, android, objectId).st
         == RecordScan(st, key, spot2, android, objectId).st
  {
    var once := RecordScan(st, key, spot1, android, objectId);
    var twice := RecordScan(once.st, key, spot2, android, objectId);
    var single := RecordScan(st, key, spot2, android, objectId);
    assert twice.before == once.after;
    assert twice.after == single.after;
    assert twice.st.users == single.st.users;
    assert twice.st.spots == single.st.spots;
  }

  /**
   * Resending the same scan request (same claim, same uid cookie, same
   * fresh UUID) leaves the store as one scan at the later time would.
   */
  lemma ReplayEqualsSingleScan(st: State, cfg: Config, req: ScanRequest, freshUuid: string, now1: int, now2: int)
    ensures Scan(Scan(st, cfg, req, freshUuid, now1).st, cfg, req, freshUuid, now2).st
         == Scan(st, cfg, req, freshUuid, now2).st
  {
    if Accepted(cfg, req.claim) {
      var key := ScanKey(req, freshUuid);
      var objectId := ObjectId(cfg.issuerId, key.uid, key.garage);
      assert objectId != "" by { assert objectId[|cfg.issuerId|] == '.'; }
      RecordTwice(st, key, ScanSpot(req.claim, now1), ScanSpot(req.claim, now2),
                  IsAndroid(OrEmpty(req.userAgent)), objectId);
    }
  }

  /**
   * Two accepted scans for the same (uid, garage): the stored spot is the
   * second one to arrive, whatever the two timestamps.
   */
  lemma LastArrivalWins(st: State, cfg: Config, req1: ScanRequest, req2: ScanRequest,
                        fresh1: string, fresh2: string, t1: int, t2: int)
    requires Accepted(cfg, req1.claim) && Accepted(cfg, req2.claim)
    requires ScanKey(req1, fresh1) == ScanKey(req2, fresh2)
    ensures Scan(Scan(st, cfg, req1, fresh1, t1).st, cfg, req2, fresh2, t2).st.spots[ScanKey(req2, fresh2)]
         == ScanSpot(req2.claim, t2)
  {
  }

  /** With the corrected decoding, a pull for the serial of a (uid, garage) with a recorded spot shows that spot. */
  lemma PulledPassShowsSpot(st: State, cfg: Config, uid: string, garage: string, entropy: seq<byte>)
    requires |entropy| == ApplePass.TokenBytes
    requires '-' !in garage
    requires Key(uid, garage) in st.spots
    ensures var serial := PassSerial.SerialNumber(uid, Str(garage));
      var spot := st.spots[Key(uid, garage)];
      var p := PulledPass(st, cfg, PassSerial.DecodeSerial(serial), entropy);
      && p.overrides.serialNumber == serial
      && p.overrides.primaryFloor == spot.floor
      && p.overrides.secondaryStair == spot.stair
      && p.overrides.secondaryGarage == Str(garage)
  {
    var serial := PassSerial.SerialNumber(uid, Str(garage));
    PassSerial.DecodeSerialRoundTrip(uid, garage);
    assert CallbackKeyCorrected(serial) == Some(Key(uid, garage));
    var spot := st.spots[Key(uid, garage)];
    assert PulledLocation(st, PassSerial.DecodeSerial(serial)) == (Str(spot.floor), Str(spot.stair));
    if spot.stair == "" {
      assert OrEmpty(Str(spot.stair)) == "";
    } else {
      TruthyStr(spot.stair);
    }
  }

  /**
   * As written, the same holds when neither the uid nor the garage has a
   * hyphen, since `split('-')` then reads the serial back whole.
   */
  lemma SplitPulledPassShowsSpot(st: State, cfg: Config, uid: string, garage: string, entropy: seq<byte>)
    requires |entropy| == ApplePass.TokenBytes
    requires '-' !in uid && '-' !in garage
    requires Key(uid, garage) in st.spots
    ensures var serial := PassSerial.SerialNumber(uid, Str(garage));
      var spot := st.spots[Key(uid, garage)];
      var p := PulledPass(st, cfg, PassSerial.SplitSerial(serial), entropy);
      && p.overrides.serialNumber == serial
      && p.overrides.primaryFloor == spot.floor
      && p.overrides.secondaryStair == spot.stair
  {
    var serial := PassSerial.SerialNumber(uid, Str(garage));
    PassSerial.SplitSerialRoundTripIff(uid, garage);
    PassSerial.DecodeSerialRoundTrip(uid, garage);
    PulledPassShowsSpot(st, cfg, uid, garage, entropy);
  }

  /**
   * With the corrected decoding, pulling the pass of a scanned (uid, garage)
   * rebuilds it from the spot just recorded, provided the garage has no hyphen.
   */
  lemma PullShowsLatestScan(st: State, cfg: Config, req: ScanRequest, freshUuid: string, now: int, entropy: seq<byte>)
    requires |entropy| == ApplePass.TokenBytes
    requires Accepted(cfg, req.claim)
    requires '-' !in ToString(req.claim.garage)
    ensures var key := ScanKey(req, freshUuid);
      var serial := PassSerial.SerialNumber(key.uid, req.claim.garage);
      var p := PulledPass(Scan(st, cfg, req, freshUuid, now).st, cfg, PassSerial.DecodeSerial(serial), entropy);
      && p.overrides.serialNumber == serial
      && p.overrides.primaryFloor == ToString(req.claim.floor)
      && p.overrides.secondaryStair == OrEmpty(req.claim.stair)
      && p.overrides.secondaryGarage == Str(ToString(req.claim.garage))
  {
    var key := ScanKey(req, freshUuid);
    var after := Scan(st, cfg, req, freshUuid, now).st;
    assert after.spots[key] == ScanSpot(req.claim, now);
    PulledPassShowsSpot(after, cfg, key.uid, key.garage, entropy);
    assert PassSerial.SerialNumber(key.uid, req.claim.garage) == PassSerial.SerialNumber(key.uid, Str(key.garage));
  }

  /**
   * As written, after an accepted scan by a `randomUUID` uid, a pull of that
   * pass's serial reads the UUID's first two groups as (uid, garage) and, when
   * nothing is stored there, shows the placeholder floor 4, stair "A" rather
   * than the spot just scanned.
   */
  lemma PullAfterScanAsWritten(st: State, cfg: Config, req: ScanRequest, freshUuid: string, now: int, entropy: seq<byte>)
    requires |entropy| == ApplePass.TokenBytes
    requires Accepted(cfg, req.claim)
    requires var uid := ScanUid(req.cookieUid, freshUuid);
      PassSerial.IsUuid(uid) && Key(uid[..8], uid[9..13]) !in st.spots
    ensures var key := ScanKey(req, freshUuid);
      var serial := PassSerial.SerialNumber(key.uid, req.claim.garage);
      var p := PulledPass(Scan(st, cfg, req, freshUuid, now).st, cfg, PassSerial.SplitSerial(serial), entropy);
      && p.overrides.serialNumber == key.uid[..8] + "-" + key.uid[9..13]
      && p.overrides.primaryFloor == "4"
      && p.overrides.secondaryStair == "A"
  {
    var key := ScanKey(req, freshUuid);
    var g := ToString(req.claim.garage);
    var serial := PassSerial.SerialNumber(key.uid, req.claim.garage);
    assert serial == PassSerial.SerialNumber(key.uid, Str(g));
    PassSerial.UuidSerialMisread(key.uid, g);
    var misread := Key(key.uid[..8], key.uid[9..13]);
    assert CallbackKey(serial) == Some(misread);
    assert misread != key by { assert |misread.uid| == 8 < |key.uid|; }
    var after := Scan(st, cfg, req, freshUuid, now).st;
    assert after.spots == st.spots[key := ScanSpot(req.claim, now)];
    assert misread !in after.spots;
    PullWithoutSpotFallsBack(after, cfg, serial, entropy);
    assert PassSerial.SerialNumber(misread.uid, Str(misread.garage)) == misread.uid + "-" + misread.garage;
  }

  /**
   * With the corrected decoding, a scan at floor 7, stair B followed by one at
   * floor 2 without a stair: the pulled pass shows floor "2" and an empty
   * stair, not the earlier values.
   */
  lemma PullAfterMoveShowsNewSpot(st: State, cfg: Config, req1: ScanRequest, req2: ScanRequest,
                                  uuid: string, t1: int, t2: int, entropy: seq<byte>)
    requires |entropy| == ApplePass.TokenBytes
    requires Accepted(cfg, req1.claim) && Accepted(cfg, req2.claim)
    requires req1.claim.floor == Str("7") && req1.claim.stair == Str("B")
    requires req2.claim.floor == Str("2") && req2.claim.stair == Undefined
    requires ScanKey(req1, uuid) == ScanKey(req2, uuid)
    requires '-' !in ToString(req2.claim.garage)
    ensures var key := ScanKey(req2, uuid);
      var serial := PassSerial.SerialNumber(key.uid, req2.claim.garage);
      var p := PulledPass(Scan(Scan(st, cfg, req1, uuid, t1).st, cfg, req2, uuid, t2).st, cfg,
                          PassSerial.DecodeSerial(serial), entropy);
      p.overrides.primaryFloor == "2" && p.overrides.secondaryStair == ""
  {
    PullShowsLatestScan(Scan(st, cfg, req1, uuid, t1).st, cfg, req2, uuid, t2, entropy);
  }

  /** As written, without a recorded spot under the `split('-')` key, a pulled pass shows the placeholder floor 4, stair "A". */
  lemma PullWithoutSpotFallsBack(st: State, cfg: Config, serial: string, entropy: seq<byte>)
    requires |entropy| == ApplePass.TokenBytes
    requires CallbackKey(serial).None? || CallbackKey(serial).value !in st.spots
    ensures PulledPass(st, cfg, PassSerial.SplitSerial(serial), entropy).overrides.primaryFloor == "4"
    ensures PulledPass(st, cfg, PassSerial.SplitSerial(serial), entropy).overrides.secondaryStair == "A"
  {
  }

  /** The pass class id never equals an object id of the same issuer, whose suffix always holds a hyphen. */
  lemma ClassIdIsNotObjectId(issuerId: string, uid: string, garage: string)
    ensures ClassId(issuerId) != ObjectId(issuerId, uid, garage)
  {
    var c := ClassId(issuerId);
    var o := ObjectId(issuerId, uid, garage);
    var i := |issuerId| + 1 + |uid|;
    assert o[i] == '-' by { assert o[|issuerId| + 1..][|uid|] == '-'; }
    if |c| == |o| {
      assert c[i] == c[|issuerId| + 1..][|uid|];
    }
  }

  /**
   * As written, a pull for any serial whose `split('-')` key has a recorded
   * spot shows that spot, under the serial rebuilt from the two pieces read.
   */
  lemma PullReadsSplitKey(st: State, cfg: Config, serial: string, entropy: seq<byte>)
    requires |entropy| == ApplePass.TokenBytes
    requires CallbackKey(serial).Some? && CallbackKey(serial).value in st.spots
    ensures var k := CallbackKey(serial).value;
      var p := PulledPass(st, cfg, PassSerial.SplitSerial(serial), entropy);
      && p.overrides.serialNumber == k.uid + "-" + k.garage
      && p.overrides.primaryFloor == st.spots[k].floor
      && p.overrides.secondaryStair == st.spots[k].stair
  {
  }

  /**
   * With the corrected decoding, the serial recorded by pass creation leads
   * the callbacks back to the same (uid, garage), provided the garage has no hyphen.
   */
  lemma CreatedSerialFindsKey(st: State, cfg: Config, req: CreateRequest, entropy: seq<byte>)
    requires |entropy| == ApplePass.TokenBytes
    requires Truthy(req.uid) && Truthy(req.garage)
    requires '-' !in ToString(req.garage)
    ensures var key := Key(ToString(req.uid), ToString(req.garage));
      var u := CreateApple(st, cfg, req, entropy).st.users[key];
      u.appleSerial.Some? && CallbackKeyCorrected(u.appleSerial.value) == Some(key)
  {
    var g := ToString(req.garage);
    TruthyStr(g);
    PassSerial.DecodeSerialRoundTrip(ToString(req.uid), g);
  }

  /**
   * As written, when the uid is a `randomUUID` the serial recorded by pass
   * creation leads the callbacks to the UUID's first two groups instead of
   * the pass's own (uid, garage).
   */
  lemma CreatedSerialMisleadsCallbacks(st: State, cfg: Config, req: CreateRequest, entropy: seq<byte>)
    requires |entropy| == ApplePass.TokenBytes
    requires Truthy(req.garage) && PassSerial.IsUuid(ToString(req.uid))
    ensures var uid := ToString(req.uid);
      var key := Key(uid, ToString(req.garage));
      var u := CreateApple(st, cfg, req, entropy).st.users[key];
      && u.appleSerial.Some?
      && CallbackKey(u.appleSerial.value) == Some(Key(uid[..8], uid[9..13]))
      && CallbackKey(u.appleSerial.value) != Some(key)
  {
    var uid := ToString(req.uid);
    var g := ToString(req.garage);
    assert Truthy(req.uid) by { assert |uid| == 36; }
    assert PassSerial.SerialNumber(uid, req.garage) == PassSerial.SerialNumber(uid, Str(g));
    PassSerial.UuidSerialMisread(uid, g);
  }

  /**
   * Register then unregister for the same device and serial leaves no
   * registration, and as much as unregistering alone would; with no earlier
   * registration it leaves the store as it was.
   */
  lemma RegisterThenUnregister(st: State, device: string, passTypeId: string, serial: string, token: Value)
    ensures var after := Unregister(Register(st, device, passTypeId, serial, token).st, device, passTypeId, serial).st;
      && after == Unregister(st, device, passTypeId, serial).st
      && (CallbackKey(serial).Some? ==> PushKey(CallbackKey(serial).value, device) !in after.pushes)
      && (CallbackKey(serial).Some? && PushKey(CallbackKey(serial).value, device) !in st.pushes ==> after == st)
  {
    if CallbackKey(serial).Some? {
      AddThenRemovePush(st, CallbackKey(serial).value, device, token);
    }
  }

  /** As written, on Android the record read for `needsGoogle` is always linked, so the save link is never offered. */
  lemma AsWrittenGoogleSaveNeverOffered(before: User, objectId: string, form: AppleOffer, saveUrl: string)
    requires objectId != "" && form.AddToAppleWallet?
    ensures var after := if Linked(before.googleObjectId) then before
                         else Merge(Some(before), UserPatch(Some(objectId), None));
      PageOffersAsWritten(true, after, form, saveUrl).google == GoogleLinked
  {
  }

  /** As written, an Android page always claims "Apple Wallet linked", whatever the record says. */
  lemma AsWrittenAppleLinkedOnAndroid(user: User, form: AppleOffer, saveUrl: string)
    requires !Linked(user.appleSerial) && form.AddToAppleWallet?
    ensures PageOffersAsWritten(true, user, form, saveUrl).apple == AppleLinked
  {
  }

  /** The tag claim garage G1, floor 4, stair A, tag T1, signed with the secret. */
  function SampleClaim(cfg: Config): TagClaim.Claim {
    TagClaim.Claim(Str("G1"), Str("4"), Str("A"), Str("T1"), Str(cfg.mac("G1|4|A|T1")))
  }

  lemma SampleClaimAccepted(cfg: Config)
    requires cfg.mac("G1|4|A|T1") != ""
    ensures Accepted(cfg, SampleClaim(cfg))
  {
    assert TagClaim.Message(SampleClaim(cfg)) == "G1|4|A|T1";
  }

  /** The sample claim's page text: "Floor 4 • A", in the heading and in the map search title. */
  lemma SampleWhere()
    ensures Where(Str("4"), Str("A")) == "Floor 4 \U{2022} A"
    ensures Heading(Str("4"), Str("A")) == "Saved: Floor 4 \U{2022} A"
    ensures Title(Str("4"), Str("A")) == "Parked \U{2014} Floor 4 \U{2022} A"
  {
    var w := Where(Str("4"), Str("A"));
    SampleWhereText();
    assert Heading(Str("4"), Str("A")) == "Saved: " + w;
    assert "Saved: " + w == "Saved: Floor 4 \U{2022} A";
    assert Title(Str("4"), Str("A")) == "Parked \U{2014} " + w;
    assert "Parked \U{2014} " + w == "Parked \U{2014} Floor 4 \U{2022} A";
  }

  lemma SampleWhereText()
    ensures Where(Str("4"), Str("A")) == "Floor 4 \U{2022} A"
  {
    TruthyStr("A");
    assert Where(Str("4"), Str("A")) == "Floor " + "4" + " \U{2022} " + "A";
  }

  /**
   * As written, a first Android scan of a tag, one whose Google object is not
   * yet linked, records the object but shows "Google Wallet linked" and
   * "Apple Wallet linked", sends no patch, and offers no save link.
   */
  lemma FirstAndroidScan(st: State, cfg: Config, req: ScanRequest, freshUuid: string, now: int)
    requires Accepted(cfg, req.claim) && IsAndroid(OrEmpty(req.userAgent))
    requires !Linked(StoredOrNew(st, ScanKey(req, freshUuid)).googleObjectId)
    ensures var c := req.claim;
      var r := Scan(st, cfg, req, freshUuid, now).resp;
      && r.Saved?
      && r.page.heading == Heading(c.floor, c.stair)
      && r.page.mapLink == GoogleMaps + cfg.uriEncode(Title(c.floor, c.stair))
      && r.page.offers == Offers(AppleLinked, GoogleLinked)
      && r.patch.None?
  {
    var url := Scan(st, cfg, req, freshUuid, now).resp.page.mapLink;
    assert url == MapsUrl(cfg.uriEncode, OrEmpty(req.userAgent), Title(req.claim.floor, req.claim.stair));
  }

  /**
   * Corrected, the same first Android scan offers the Google save link for
   * the object of this (uid, garage) and nothing Apple.
   */
  lemma FirstAndroidScanCorrected(st: State, cfg: Config, req: ScanRequest, freshUuid: string, now: int)
    requires Accepted(cfg, req.claim) && IsAndroid(OrEmpty(req.userAgent))
    requires !Linked(StoredOrNew(st, ScanKey(req, freshUuid)).googleObjectId)
    ensures var c := req.claim;
      var key := ScanKey(req, freshUuid);
      var r := ScanCorrected(st, cfg, req, freshUuid, now).resp;
      && r.Saved?
      && r.page.heading == Heading(c.floor, c.stair)
      && r.page.mapLink == GoogleMaps + cfg.uriEncode(Title(c.floor, c.stair))
      && r.page.offers == Offers(NoAppleOffer, AddToGoogleWallet(GooglePass.GoogleSaveUrl(
           cfg.google, ClassId(cfg.issuerId), cfg.origin, ObjectId(cfg.issuerId, key.uid, key.garage),
           c.garage, c.floor, c.stair, cfg.lat, cfg.lon)))
      && r.patch.None?
  {
    var url := ScanCorrected(st, cfg, req, freshUuid, now).resp.page.mapLink;
    assert url == MapsUrl(cfg.uriEncode, OrEmpty(req.userAgent), Title(req.claim.floor, req.claim.stair));
  }

  /**
   * As written, a first Android scan of the sample tag: the page reads
   * "Floor 4 • A" and links to Google Maps, but claims both wallets linked
   * and offers no save link, although the Google object was only now recorded.
   */
  lemma AndroidScanScenario(st: State, cfg: Config, ua: string, cookie: Value, freshUuid: string, now: int)
    requires cfg.mac("G1|4|A|T1") != ""
    requires IsAndroid(ua)
    requires var key := ScanKey(ScanRequest(SampleClaim(cfg), cookie, Str(ua)), freshUuid);
      !Linked(StoredOrNew(st, key).googleObjectId)
    ensures var r := Scan(st, cfg, ScanRequest(SampleClaim(cfg), cookie, Str(ua)), freshUuid, now).resp;
      && r.Saved?
      && r.page.heading == "Saved: Floor 4 \U{2022} A"
      && r.page.mapLink == "https://maps.google.com/?q=" + cfg.uriEncode("Parked \U{2014} Floor 4 \U{2022} A")
      && r.page.offers == Offers(AppleLinked, GoogleLinked)
      && r.patch.None?
  {
    SampleClaimAccepted(cfg);
    TruthyStr(ua);
    SampleWhere();
    FirstAndroidScan(st, cfg, ScanRequest(SampleClaim(cfg), cookie, Str(ua)), freshUuid, now);
  }

  /**
   * Corrected, the same first Android scan: the page reads "Floor 4 • A",
   * links to Google Maps, offers the Google save link for the object of this
   * (uid, garage), and offers nothing Apple.
   */
  lemma AndroidScanScenarioCorrected(st: State, cfg: Config, ua: string, cookie: Value, freshUuid: string, now: int)
    requires cfg.mac("G1|4|A|T1") != ""
    requires IsAndroid(ua)
    requires var key := ScanKey(ScanRequest(SampleClaim(cfg), cookie, Str(ua)), freshUuid);
      !Linked(StoredOrNew(st, key).googleObjectId)
    ensures var r := ScanCorrected(st, cfg, ScanRequest(SampleClaim(cfg), cookie, Str(ua)), freshUuid, now).resp;
      && r.Saved?
      && r.page.heading == "Saved: Floor 4 \U{2022} A"
      && r.page.mapLink == "https://maps.google.com/?q=" + cfg.uriEncode("Parked \U{2014} Floor 4 \U{2022} A")
      && r.page.offers.google == AddToGoogleWallet(GooglePass.GoogleSaveUrl(
           cfg.google, ClassId(cfg.issuerId), cfg.origin, ObjectId(cfg.issuerId, ScanUid(cookie, freshUuid), "G1"),
           Str("G1"), Str("4"), Str("A"), cfg.lat, cfg.lon))
      && r.page.offers.apple == NoAppleOffer
  {
    SampleClaimAccepted(cfg);
    TruthyStr(ua);
    SampleWhere();
    FirstAndroidScanCorrected(st, cfg, ScanRequest(SampleClaim(cfg), cookie, Str(ua)), freshUuid, now);
  }

  /**
   * The same scan on another device with no Apple pass yet: the page offers
   * the Apple form whose hidden fields are the claim's values.
   */
  lemma AppleScanScenario(st: State, cfg: Config, ua: string, cookie: Value, freshUuid: string, now: int)
    requires cfg.mac("G1|4|A|T1") != ""
    requires !IsAndroid(ua)
    requires var key := ScanKey(ScanRequest(SampleClaim(cfg), cookie, Str(ua)), freshUuid);
      !Linked(StoredOrNew(st, key).appleSerial)
    ensures var r := Scan(st, cfg, ScanRequest(SampleClaim(cfg), cookie, Str(ua)), freshUuid, now).resp;
      && r.Saved?
      && r.page.offers.apple == AddToAppleWallet(ScanUid(cookie, freshUuid), "G1", "4", "A")
      && r.page.offers.google == NoGoogleOffer
  {
    var c := SampleClaim(cfg);
    SampleClaimAccepted(cfg);
    assert ToString(c.garage) == "G1" && ToString(c.floor) == "4" && OrEmpty(c.stair) == "A";
  }
}
