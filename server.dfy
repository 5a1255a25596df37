/**
 * The Express server (server.js): the NFC scan handler, on-demand Apple
 * pass creation, and the four Apple Wallet web-service callbacks.
 *
 * Each handler is given twice: as a function from the store state and the
 * request to the new state and the response (used to state properties, in
 * ServerProperties), and as a method that performs the same steps on a `Db`
 * and is proved to agree with that function. Clocks, `randomUUID` and
 * `getRandomValues` are parameters; the Google patch call is returned as the
 * request it sends.
 */
module Server {
  import opened Wrappers
  import opened JsValues
  import opened Store
  import TagClaim
  import PassSerial
  import ApplePass
  import GooglePass

  /** The environment the server reads at start-up, and the capabilities it is given. */
  datatype Config = Config(
    mac: string -> string,          // hex HMAC-SHA256 under TAG_HMAC_SECRET
    issuerId: string,               // GOOGLE_ISSUER_ID
    origin: string,                 // ORIGIN
    lat: Value,                     // GARAGE_LAT
    lon: Value,                     // GARAGE_LON
    google: GooglePass.Account,
    apple: ApplePass.Settings,      // APPLE_TEAM_ID, APPLE_PASS_TYPE_ID, APPLE_WEB_SERVICE_URL
    uriEncode: string -> string)    // encodeURIComponent

  // ---------------------------------------------------------------- device and page text

  function LowerAscii(c: char): char {
    if 'A' <= c <= 'Z' then (c as int + 32) as char else c
  }

  /** "Android", in any mix of ASCII case, starts at position `i` of `ua`. */
  predicate AndroidAt(ua: string, i: int) {
    0 <= i && i + 7 <= |ua| && forall k :: 0 <= k < 7 ==> LowerAscii(ua[i + k]) == "android"[k]
  }

  /** `/Android/i.test(ua)`: the user agent contains "Android", ignoring case. */
  function IsAndroid(ua: string): (r: bool)
    ensures r <==> exists i :: AndroidAt(ua, i)
  {
    if |ua| < 7 then false
    else if AndroidAt(ua, 0) then true
    else
      assert forall j :: AndroidAt(ua[1..], j) <==> AndroidAt(ua, j + 1);
      assert forall j :: AndroidAt(ua, j) ==> j == 0 || AndroidAt(ua[1..], j - 1);
      IsAndroid(ua[1..])
  }

  /** The two map search prefixes; they first differ at index 13. */
  const GoogleMaps := "https://maps.google.com/?q="
  const AppleMaps := "https://maps.apple.com/?q="

  /** `mapsUrl`: a Google Maps search on Android, an Apple Maps search otherwise, for the encoded title. */
  function MapsUrl(encode: string -> string, ua: string, title: string): (url: string)
    ensures IsAndroid(ua) <==> GoogleMaps <= url
    ensures !IsAndroid(ua) <==> AppleMaps <= url
    ensures IsAndroid(ua) ==> url[|GoogleMaps|..] == encode(title)
    ensures !IsAndroid(ua) ==> url[|AppleMaps|..] == encode(title)
  {
    var url := if IsAndroid(ua) then GoogleMaps + encode(title) else AppleMaps + encode(title);
    assert GoogleMaps[13] == 'g' && AppleMaps[13] == 'a';
    assert url[13] == if IsAndroid(ua) then 'g' else 'a';
    url
  }

  /** `Floor ${floor}${stair ? ' • ' + stair : ''}`: the floor, then the stair only when it is truthy. */
  function Where(floor: Value, stair: Value): (w: string)
    ensures "Floor " + ToString(floor) <= w
    ensures Truthy(stair) <==> |w| > 6 + |ToString(floor)|
    ensures Truthy(stair) ==> w[6 + |ToString(floor)|..] == " \U{2022} " + ToString(stair)
  {
    "Floor " + ToString(floor) + (if Truthy(stair) then " \U{2022} " + ToString(stair) else "")
  }

  /** The map search title: "Parked — " and the location. */
  function Title(floor: Value, stair: Value): (t: string)
    ensures |t| > 9 && t[..9] == "Parked \U{2014} " && t[9..] == Where(floor, stair)
    ensures Truthy(stair) <==> |t| > 15 + |ToString(floor)|
  {
    "Parked \U{2014} " + Where(floor, stair)
  }

  /** The page heading: "Saved: " and the location. */
  function Heading(floor: Value, stair: Value): (h: string)
    ensures |h| > 7 && h[..7] == "Saved: " && h[7..] == Where(floor, stair)
    ensures Truthy(stair) <==> |h| > 13 + |ToString(floor)|
  {
    "Saved: " + Where(floor, stair)
  }

  /** `${GOOGLE_ISSUER_ID}.${uid}-${garage}`: the issuer id, a dot, and the pass serial of (uid, garage). */
  function ObjectId(issuerId: string, uid: string, garage: string): (id: string)
    ensures |id| > |issuerId| && id[..|issuerId|] == issuerId && id[|issuerId|] == '.'
    ensures id[|issuerId| + 1..] == PassSerial.SerialNumber(uid, Str(garage))
  {
    issuerId + "." + uid + "-" + garage
  }

  /** The pass class of every Google object: the issuer, a dot, and a suffix without a hyphen. */
  function ClassId(issuerId: string): (id: string)
    ensures |id| > |issuerId| && id[..|issuerId|] == issuerId && id[|issuerId|] == '.'
    ensures '-' !in id[|issuerId| + 1..]
  {
    issuerId + ".parking_generic"
  }

  // ---------------------------------------------------------------- wallet affordances

  /** The Apple element of the page: the hidden-field form, the "linked" note, or nothing. */
  datatype AppleOffer = AddToAppleWallet(uid: string, garage: string, floor: string, stair: string)
                      | AppleLinked
                      | NoAppleOffer

  /** The Google element of the page: the save link, the "linked" note, or nothing. */
  datatype GoogleOffer = AddToGoogleWallet(saveUrl: string) | GoogleLinked | NoGoogleOffer

  datatype Offers = Offers(apple: AppleOffer, google: GoogleOffer)

  /**
   * As written: both flags are read from the record held after the Google
   * linkage write, and the Apple branch has no Android case.
   */
  function PageOffersAsWritten(android: bool, user: User, form: AppleOffer, saveUrl: string): (o: Offers)
    requires form.AddToAppleWallet?
    ensures o.apple == form <==> !android && !Linked(user.appleSerial)
    ensures o.apple == AppleLinked <==> android || Linked(user.appleSerial)
    ensures o.apple != NoAppleOffer
    ensures o.google == AddToGoogleWallet(saveUrl) <==> android && !Linked(user.googleObjectId)
    ensures o.google == GoogleLinked <==> android && Linked(user.googleObjectId)
    ensures o.google == NoGoogleOffer <==> !android
  {
    var needsApple := !android && !Linked(user.appleSerial);
    var needsGoogle := android && !Linked(user.googleObjectId);
    Offers(if needsApple then form else AppleLinked,
           if needsGoogle then AddToGoogleWallet(saveUrl) else if android then GoogleLinked else NoGoogleOffer)
  }

  /**
   * Corrected: the Google offer is decided on the record as it was before
   * this scan linked it, and an Android page shows no Apple element.
   */
  function PageOffers(android: bool, before: User, after: User, form: AppleOffer, saveUrl: string): (o: Offers)
    requires form.AddToAppleWallet?
    ensures o.google == AddToGoogleWallet(saveUrl) <==> android && !Linked(before.googleObjectId)
    ensures o.google == GoogleLinked <==> android && Linked(before.googleObjectId)
    ensures o.google == NoGoogleOffer <==> !android
    ensures o.apple == form <==> !android && !Linked(after.appleSerial)
    ensures o.apple == AppleLinked <==> !android && Linked(after.appleSerial)
    ensures o.apple == NoAppleOffer <==> android
  {
    var needsApple := !android && !Linked(after.appleSerial);
    var needsGoogle := android && !Linked(before.googleObjectId);
    Offers(if needsApple then form else if android then NoAppleOffer else AppleLinked,
           if needsGoogle then AddToGoogleWallet(saveUrl) else if android then GoogleLinked else NoGoogleOffer)
  }

  // ---------------------------------------------------------------- GET /floor

  datatype ScanRequest = ScanRequest(claim: TagClaim.Claim, cookieUid: Value, userAgent: Value)

  datatype Page = Page(heading: string, mapLink: string, offers: Offers)

  /**
   * 400 for a bad tag; a RangeError thrown out of the handler, so no answer
   * and nothing stored; or 200 with the page, the cookie set (if any) and
   * the Google patch sent (if any).
   */
  datatype ScanResponse = BadTag | Raised | Saved(setCookie: Option<string>, page: Page, patch: Option<GooglePass.ObjectPatch>)

  datatype ScanStep = ScanStep(st: State, resp: ScanResponse)

  /** The guard of the scan handler: required fields present and the signature verified. */
  predicate Accepted(cfg: Config, c: TagClaim.Claim) {
    TagClaim.HasRequiredFields(c) && TagClaim.VerifyHmac(cfg.mac, c)
  }

  /** The guard as written throws: required fields present and `timingSafeEqual` given unequal lengths. */
  predicate Raises(cfg: Config, c: TagClaim.Claim) {
    TagClaim.HasRequiredFields(c) && TagClaim.VerifyHmacAsWritten(cfg.mac, c) == TagClaim.Throw
  }

  /** The uid cookie if set, otherwise the freshly generated UUID. */
  function ScanUid(cookieUid: Value, freshUuid: string): (uid: string)
    ensures Truthy(cookieUid) ==> uid == ToString(cookieUid) && uid != ""
    ensures !Truthy(cookieUid) ==> uid == freshUuid
  {
    if Truthy(cookieUid) then ToString(cookieUid) else freshUuid
  }

  function ScanKey(req: ScanRequest, freshUuid: string): Key {
    Key(ScanUid(req.cookieUid, freshUuid), ToString(req.claim.garage))
  }

  /** The spot an accepted scan records: the floor as text, the stair or an empty string, the time. */
  function ScanSpot(c: TagClaim.Claim, now: int): (spot: Spot)
    ensures spot.floor == ToString(c.floor) && spot.ts == now
    ensures spot.stair == "" <==> !Truthy(c.stair)
    ensures spot.stair != "" ==> spot.stair == ToString(c.stair)
  {
    Spot(ToString(c.floor), OrEmpty(c.stair), now)
  }

  /** The user record a scan starts from: the stored one, or a fresh one without links. */
  function StoredOrNew(st: State, key: Key): User {
    if key in st.users then st.users[key] else User(None, None)
  }

  /** The store after an accepted scan, with the user record as read before and as held after the linkage write. */
  datatype Recorded = Recorded(st: State, before: User, after: User)

  /**
   * The store effects of an accepted scan: get or create the user, overwrite
   * the spot, and on Android record the Google object id if none is linked.
   */
  function RecordScan(st: State, key: Key, spot: Spot, android: bool, objectId: string): (r: Recorded)
    ensures r.before == StoredOrNew(st, key)
    ensures r.st.spots == st.spots[key := spot] && r.st.pushes == st.pushes
    ensures r.st.users == st.users[key := r.after]
    ensures android && !Linked(r.before.googleObjectId) ==>
      r.after == r.before.(googleObjectId := Some(objectId))
    ensures !(android && !Linked(r.before.googleObjectId)) ==> r.after == r.before
  {
    var got := if key in st.users then (st, st.users[key]) else Upserted(st, key, NoLinks);
    var st1, before := got.0, got.1;
    var st2 := SpotUpdated(st1, key, spot);
    if android && !Linked(before.googleObjectId) then
      var up := Upserted(st2, key, UserPatch(Some(objectId), None));
      Recorded(up.0, before, up.1)
    else Recorded(st2, before, before)
  }

  /** What an accepted scan stores and computes before the page's wallet elements are chosen. */
  datatype ScanParts = ScanParts(rec: Recorded, setCookie: Option<string>, android: bool, heading: string,
                                 mapLink: string, form: AppleOffer, saveUrl: string,
                                 patch: Option<GooglePass.ObjectPatch>)

  function ScanEffects(st: State, cfg: Config, req: ScanRequest, freshUuid: string, now: int): ScanParts {
    var c := req.claim;
    var uid := ScanUid(req.cookieUid, freshUuid);
    var garage := ToString(c.garage);
    var ua := OrEmpty(req.userAgent);
    var android := IsAndroid(ua);
    var objectId := ObjectId(cfg.issuerId, uid, garage);
    var rec := RecordScan(st, Key(uid, garage), ScanSpot(c, now), android, objectId);
    var saveUrl :=
      if android then
        GooglePass.GoogleSaveUrl(cfg.google, ClassId(cfg.issuerId), cfg.origin, objectId,
                                 c.garage, c.floor, c.stair, cfg.lat, cfg.lon)
      else "";
    var patch :=
      if android && Linked(rec.before.googleObjectId) then
        Some(GooglePass.GoogleUpdateObject(rec.before.googleObjectId.value, c.garage, c.floor, c.stair))
      else None;
    ScanParts(rec, if Truthy(req.cookieUid) then None else Some(uid), android, Heading(c.floor, c.stair),
              MapsUrl(cfg.uriEncode, ua, Title(c.floor, c.stair)),
              AddToAppleWallet(uid, garage, ToString(c.floor), OrEmpty(c.stair)), saveUrl, patch)
  }

  /**
   * The scan handler as written: reject a tag without its required fields
   * or with a wrong signature; throw when the signature's length differs
   * from the digest's; otherwise record the scan, send the Google patch
   * when the object was already linked, and return the page, whose wallet
   * elements are read from the record after the linkage write.
   */
  function Scan(st: State, cfg: Config, req: ScanRequest, freshUuid: string, now: int): (r: ScanStep)
    ensures !TagClaim.HasRequiredFields(req.claim) ==> r == ScanStep(st, BadTag)
    ensures Raises(cfg, req.claim) ==> r == ScanStep(st, Raised)
    ensures TagClaim.HasRequiredFields(req.claim) && TagClaim.VerifyHmacAsWritten(cfg.mac, req.claim) == TagClaim.Reject ==>
      r == ScanStep(st, BadTag)
    ensures Accepted(cfg, req.claim) ==>
      var c := req.claim;
      var key := ScanKey(req, freshUuid);
      var android := IsAndroid(OrEmpty(req.userAgent));
      var rec := RecordScan(st, key, ScanSpot(c, now), android, ObjectId(cfg.issuerId, key.uid, key.garage));
      && r.st == rec.st
      && r.resp.Saved?
      && r.resp.setCookie == (if Truthy(req.cookieUid) then None else Some(freshUuid))
      && r.resp.page.heading == Heading(c.floor, c.stair)
      && r.resp.page.mapLink == MapsUrl(cfg.uriEncode, OrEmpty(req.userAgent), Title(c.floor, c.stair))
      && r.resp.patch == (if android && Linked(rec.before.googleObjectId)
                          then Some(GooglePass.GoogleUpdateObject(rec.before.googleObjectId.value, c.garage, c.floor, c.stair))
                          else None)
      && r.resp.page.offers.apple == (if !android && !Linked(rec.after.appleSerial)
                                      then AddToAppleWallet(key.uid, key.garage, ToString(c.floor), OrEmpty(c.stair))
                                      else AppleLinked)
      && r.resp.page.offers.google == (if android then GoogleLinked else NoGoogleOffer)
  {
    var c := req.claim;
    if !TagClaim.HasRequiredFields(c) then ScanStep(st, BadTag)
    else match TagClaim.VerifyHmacAsWritten(cfg.mac, c)
      case Throw => ScanStep(st, Raised)
      case Reject => ScanStep(st, BadTag)
      case Accept =>
        var p := ScanEffects(st, cfg, req, freshUuid, now);
        var offers := PageOffersAsWritten(p.android, p.rec.after, p.form, p.saveUrl);
        ScanStep(p.rec.st, Saved(p.setCookie, Page(p.heading, p.mapLink, offers), p.patch))
  }

  /**
   * The scan handler as evidently intended: a signature of the wrong length
   * is rejected rather than thrown, the Google offer is decided on the record
   * as read before this scan linked it, and an Android page shows no Apple
   * element.
   */
  function ScanCorrected(st: State, cfg: Config, req: ScanRequest, freshUuid: string, now: int): (r: ScanStep)
    ensures !Accepted(cfg, req.claim) ==> r == ScanStep(st, BadTag)
    ensures Accepted(cfg, req.claim) ==>
      var c := req.claim;
      var key := ScanKey(req, freshUuid);
      var android := IsAndroid(OrEmpty(req.userAgent));
      var rec := RecordScan(st, key, ScanSpot(c, now), android, ObjectId(cfg.issuerId, key.uid, key.garage));
      && r.st == rec.st
      && r.resp.Saved?
      && r.resp.setCookie == (if Truthy(req.cookieUid) then None else Some(freshUuid))
      && r.resp.page.heading == Heading(c.floor, c.stair)
      && r.resp.page.mapLink == MapsUrl(cfg.uriEncode, OrEmpty(req.userAgent), Title(c.floor, c.stair))
      && r.resp.patch == (if android && Linked(rec.before.googleObjectId)
                          then Some(GooglePass.GoogleUpdateObject(rec.before.googleObjectId.value, c.garage, c.floor, c.stair))
                          else None)
      && (r.resp.page.offers.google.AddToGoogleWallet? <==> android && !Linked(rec.before.googleObjectId))
      && (r.resp.page.offers.google == GoogleLinked <==> android && Linked(rec.before.googleObjectId))
      && (r.resp.page.offers.apple == AddToAppleWallet(key.uid, key.garage, ToString(c.floor), OrEmpty(c.stair))
          <==> !android && !Linked(rec.after.appleSerial))
      && (r.resp.page.offers.apple == AppleLinked <==> !android && Linked(rec.after.appleSerial))
      && (r.resp.page.offers.apple == NoAppleOffer <==> android)
  {
    if !Accepted(cfg, req.claim) then ScanStep(st, BadTag)
    else
      var p := ScanEffects(st, cfg, req, freshUuid, now);
      var offers := PageOffers(p.android, p.rec.before, p.rec.after, p.form, p.saveUrl);
      ScanStep(p.rec.st, Saved(p.setCookie, Page(p.heading, p.mapLink, offers), p.patch))
  }

  /** The scan handler's steps as written, performed on the store. */
  method HandleScan(db: Db, cfg: Config, req: ScanRequest, freshUuid: string, now: int) returns (resp: ScanResponse)
    modifies db
    ensures db.Snapshot() == Scan(old(db.Snapshot()), cfg, req, freshUuid, now).st
    ensures resp == Scan(old(db.Snapshot()), cfg, req, freshUuid, now).resp
  {
    var c := req.claim;
    if !Truthy(c.garage) || !Truthy(c.floor) || !Truthy(c.tag) || !Truthy(c.sig) {
      return BadTag;
    }
    var verified := TagClaim.VerifyHmacAsWritten(cfg.mac, c);
    if verified == TagClaim.Throw {
      return Raised;
    } else if verified == TagClaim.Reject {
      return BadTag;
    }

    var uid: string;
    var setCookie: Option<string> := None;
    if Truthy(req.cookieUid) {
      uid := ToString(req.cookieUid);
    } else {
      uid := freshUuid;
      setCookie := Some(uid);
    }
    var garage := ToString(c.garage);
    var key := Key(uid, garage);

    var found := db.GetUser(key);
    var user: User;
    if found.None? {
      user := db.UpsertUser(key, NoLinks);
    } else {
      user := found.value;
    }
    var before := user;

    db.UpdateSpot(key, ScanSpot(c, now));

    var ua := OrEmpty(req.userAgent);
    var mapLink := MapsUrl(cfg.uriEncode, ua, Title(c.floor, c.stair));

    var saveGoogleUrl := "";
    var patch: Option<GooglePass.ObjectPatch> := None;
    if IsAndroid(ua) {
      var objectId := ObjectId(cfg.issuerId, uid, garage);
      saveGoogleUrl := GooglePass.GoogleSaveUrl(cfg.google, ClassId(cfg.issuerId), cfg.origin, objectId,
                                                c.garage, c.floor, c.stair, cfg.lat, cfg.lon);
      if !Linked(user.googleObjectId) {
        user := db.UpsertUser(key, UserPatch(Some(objectId), None));
      } else {
        patch := Some(GooglePass.GoogleUpdateObject(user.googleObjectId.value, c.garage, c.floor, c.stair));
      }
    }

    var form := AddToAppleWallet(uid, garage, ToString(c.floor), OrEmpty(c.stair));
    var offers := PageOffersAsWritten(IsAndroid(ua), user, form, saveGoogleUrl);
    resp := Saved(setCookie, Page(Heading(c.floor, c.stair), mapLink, offers), patch);
  }

  // ---------------------------------------------------------------- POST /wallet/apple/create

  datatype CreateRequest = CreateRequest(uid: Value, garage: Value, floor: Value, stair: Value)

  const PkPassType := "application/vnd.apple.pkpass"
  const PkPassAttachment := "attachment; filename=parking.pkpass"

  /** 400 "Missing", or a pass archive with its content type and, for a download, its disposition. */
  datatype PassResponse = Missing | PkPassFile(contentType: string, disposition: Option<string>, body: seq<byte>)

  datatype CreateStep = CreateStep(st: State, resp: PassResponse)

  /** Pass creation: reject without uid or garage, else build the pass and record its serial. */
  function CreateApple(st: State, cfg: Config, req: CreateRequest, entropy: seq<byte>): (r: CreateStep)
    requires |entropy| == ApplePass.TokenBytes
    ensures !Truthy(req.uid) || !Truthy(req.garage) ==> r == CreateStep(st, Missing)
    ensures Truthy(req.uid) && Truthy(req.garage) ==>
      var key := Key(ToString(req.uid), ToString(req.garage));
      && r.st.users == st.users[key := User(StoredOrNew(st, key).googleObjectId,
                                            Some(PassSerial.SerialNumber(ToString(req.uid), req.garage)))]
      && r.st.spots == st.spots && r.st.pushes == st.pushes
      && r.resp.PkPassFile? && r.resp.contentType == PkPassType
      && r.resp.disposition == Some(PkPassAttachment)
      && r.resp.body == ApplePass.PkPass(ToString(req.uid), req.garage, req.floor, req.stair, cfg.apple, entropy)
  {
    if !Truthy(req.uid) || !Truthy(req.garage) then CreateStep(st, Missing)
    else
      var uid := ToString(req.uid);
      var serial := PassSerial.SerialNumber(uid, req.garage);
      var body := ApplePass.PkPass(uid, req.garage, req.floor, req.stair, cfg.apple, entropy);
      var up := Upserted(st, Key(uid, ToString(req.garage)), UserPatch(None, Some(serial)));
      CreateStep(up.0, PkPassFile(PkPassType, Some(PkPassAttachment), body))
  }

  method HandleCreateApple(db: Db, cfg: Config, req: CreateRequest, entropy: seq<byte>) returns (resp: PassResponse)
    requires |entropy| == ApplePass.TokenBytes
    modifies db
    ensures db.Snapshot() == CreateApple(old(db.Snapshot()), cfg, req, entropy).st
    ensures resp == CreateApple(old(db.Snapshot()), cfg, req, entropy).resp
  {
    if !Truthy(req.uid) || !Truthy(req.garage) {
      return Missing;
    }
    var uid := ToString(req.uid);
    var pkpass, serialNumber := ApplePass.CreateApplePass(uid, req.garage, req.floor, req.stair, cfg.apple, entropy);
    var _ := db.UpsertUser(Key(uid, ToString(req.garage)), UserPatch(None, Some(serialNumber)));
    resp := PkPassFile(PkPassType, Some(PkPassAttachment), pkpass);
  }

  // ---------------------------------------------------------------- Apple web-service callbacks

  /** The store key a decoded serial stands for; none when its garage is undefined. */
  function KeyOf(d: PassSerial.Decoded): Option<Key> {
    if d.garage.Str? then Some(Key(d.uid, d.garage.s)) else None
  }

  /**
   * As written: the key `serialNumber.split('-')` reads from a callback's
   * serial, its first two hyphen-free pieces; none when the serial has no hyphen.
   */
  function CallbackKey(serial: string): (k: Option<Key>)
    ensures k.Some? <==> '-' in serial
    ensures k.Some? ==> '-' !in k.value.uid && '-' !in k.value.garage && k.value.uid + "-" + k.value.garage <= serial
    ensures k.Some? ==> var e := |k.value.uid| + 1 + |k.value.garage|; e == |serial| || (e < |serial| && serial[e] == '-')
  {
    KeyOf(PassSerial.SplitSerial(serial))
  }

  /** Corrected: the key of the serial split at its last hyphen, which rebuilds the whole serial. */
  function CallbackKeyCorrected(serial: string): (k: Option<Key>)
    ensures k.Some? <==> '-' in serial
    ensures k.Some? ==> serial == PassSerial.SerialNumber(k.value.uid, Str(k.value.garage)) && '-' !in k.value.garage
  {
    KeyOf(PassSerial.DecodeSerial(serial))
  }

  datatype CallbackStep = CallbackStep(st: State, status: int)

  /** POST .../registrations/:passTypeId/:serialNumber: store the push token, answer 201. */
  function Register(st: State, device: string, passTypeId: string, serial: string, pushToken: Value): (r: CallbackStep)
    ensures r.status == 201
    ensures CallbackKey(serial).Some? ==> r.st == PushAdded(st, CallbackKey(serial).value, device, pushToken)
    ensures CallbackKey(serial).None? ==> r.st == st
  {
    match CallbackKey(serial)
    case Some(key) => CallbackStep(PushAdded(st, key, device, pushToken), 201)
    case None => CallbackStep(st, 201)
  }

  /** DELETE .../registrations/:passTypeId/:serialNumber: drop the registration, answer 200. */
  function Unregister(st: State, device: string, passTypeId: string, serial: string): (r: CallbackStep)
    ensures r.status == 200
    ensures CallbackKey(serial).Some? ==> r.st == PushRemoved(st, CallbackKey(serial).value, device)
    ensures CallbackKey(serial).None? ==> r.st == st
  {
    match CallbackKey(serial)
    case Some(key) => CallbackStep(PushRemoved(st, key, device), 200)
    case None => CallbackStep(st, 200)
  }

  method HandleRegister(db: Db, device: string, passTypeId: string, serial: string, pushToken: Value)
    returns (status: int)
    modifies db
    ensures db.Snapshot() == Register(old(db.Snapshot()), device, passTypeId, serial, pushToken).st
    ensures status == 201
  {
    var d := PassSerial.SplitSerial(serial);
    if d.garage.Str? {
      db.AddApplePush(Key(d.uid, d.garage.s), device, pushToken);
    }
    status := 201;
  }

  method HandleUnregister(db: Db, device: string, passTypeId: string, serial: string) returns (status: int)
    modifies db
    ensures db.Snapshot() == Unregister(old(db.Snapshot()), device, passTypeId, serial).st
    ensures status == 200
  {
    var d := PassSerial.SplitSerial(serial);
    if d.garage.Str? {
      db.RemoveApplePush(Key(d.uid, d.garage.s), device);
    }
    status := 200;
  }

  datatype SerialList = SerialList(serialNumbers: seq<string>, lastUpdated: string)

  /** GET .../registrations/:passTypeId: always no serials, stamped with the current time (ISO 8601). */
  function ListSerials(device: string, passTypeId: string, nowIso: string): (r: SerialList)
    ensures r.serialNumbers == [] && r.lastUpdated == nowIso
  {
    SerialList([], nowIso)
  }

  /** The floor and stair a pulled pass shows: the stored spot, or floor 4 / stair "A" when there is none. */
  function PulledLocation(st: State, d: PassSerial.Decoded): (loc: (Value, Value))
    ensures KeyOf(d).Some? && KeyOf(d).value in st.spots ==>
      loc == (Str(st.spots[KeyOf(d).value].floor), Str(st.spots[KeyOf(d).value].stair))
    ensures KeyOf(d).None? || KeyOf(d).value !in st.spots ==> loc == (Num(4), Str("A"))
  {
    var spot := match KeyOf(d)
      case Some(key) => Lookup(st.spots, key)
      case None => None;
    if spot.Some? then (Str(spot.value.floor), Str(spot.value.stair)) else (Num(4), Str("A"))
  }

  /** The pass a pull rebuilds, from the decoded uid and garage and the location above. */
  function PulledPass(st: State, cfg: Config, d: PassSerial.Decoded, entropy: seq<byte>): ApplePass.Pass
    requires |entropy| == ApplePass.TokenBytes
  {
    var loc := PulledLocation(st, d);
    ApplePass.PassFor(d.uid, d.garage, loc.0, loc.1, cfg.apple, entropy)
  }

  /** GET /applepass/v1/passes/:passTypeId/:serialNumber as written: the pass rebuilt for the `split('-')` reading. */
  function Pull(st: State, cfg: Config, passTypeId: string, serial: string, entropy: seq<byte>): (r: PassResponse)
    requires |entropy| == ApplePass.TokenBytes
    ensures r == PkPassFile(PkPassType, None,
                            ApplePass.Concat(cfg.apple.generate(PulledPass(st, cfg, PassSerial.SplitSerial(serial), entropy))))
  {
    var d := PassSerial.SplitSerial(serial);
    var loc := PulledLocation(st, d);
    PkPassFile(PkPassType, None, ApplePass.PkPass(d.uid, d.garage, loc.0, loc.1, cfg.apple, entropy))
  }

  /** The pull as intended: the pass rebuilt for the serial split at its last hyphen. */
  function PullCorrected(st: State, cfg: Config, passTypeId: string, serial: string, entropy: seq<byte>): (r: PassResponse)
    requires |entropy| == ApplePass.TokenBytes
    ensures r == PkPassFile(PkPassType, None,
                            ApplePass.Concat(cfg.apple.generate(PulledPass(st, cfg, PassSerial.DecodeSerial(serial), entropy))))
  {
    var d := PassSerial.DecodeSerial(serial);
    var loc := PulledLocation(st, d);
    PkPassFile(PkPassType, None, ApplePass.PkPass(d.uid, d.garage, loc.0, loc.1, cfg.apple, entropy))
  }

  method HandlePull(db: Db, cfg: Config, passTypeId: string, serial: string, entropy: seq<byte>)
    returns (resp: PassResponse)
    requires |entropy| == ApplePass.TokenBytes
    ensures resp == Pull(db.Snapshot(), cfg, passTypeId, serial, entropy)
  {
    var d := PassSerial.SplitSerial(serial);
    var s: Option<Spot> := None;
    if d.garage.Str? {
      s := db.GetSpot(Key(d.uid, d.garage.s));
    }
    var floor, stair := Num(4), Str("A");
    if s.Some? {
      floor, stair := Str(s.value.floor), Str(s.value.stair);
    }
    var pkpass, _ := ApplePass.CreateApplePass(d.uid, d.garage, floor, stair, cfg.apple, entropy);
    resp := PkPassFile(PkPassType, None, pkpass);
  }
}
