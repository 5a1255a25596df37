/**
 * Google Wallet content (wallet/google.js): the signed "save to wallet"
 * link and the patch that updates an existing generic object. JWT signing
 * with the service account key and the googleapis client are not modelled:
 * `Account.sign` stands for the RS256 signature, and a patch is the request
 * that would be sent.
 */
module GooglePass {
  import opened JsValues

  datatype LocalizedString = LocalizedString(language: string, value: string)
  datatype TextModule = TextModule(header: string, body: string)

  /** The raw configured coordinates; their `Number(...)` conversion is not modelled. */
  datatype LatLng = LatLng(latitude: Value, longitude: Value)

  datatype GenericObject = GenericObject(
    id: string,
    classId: string,
    logoUri: string,
    cardTitle: LocalizedString,
    subheader: LocalizedString,
    header: LocalizedString,
    textModulesData: seq<TextModule>,
    locations: seq<LatLng>)

  datatype GenericClass = GenericClass(id: string, issuerName: string, reviewStatus: string, locations: seq<LatLng>)

  /** The JWT claims of a save link. */
  datatype SavePayload = SavePayload(
    iss: string,
    aud: string,
    typ: string,
    origins: seq<string>,
    genericObjects: seq<GenericObject>,
    genericClasses: seq<GenericClass>)

  /** The service account: its client e-mail and its RS256 signer. */
  datatype Account = Account(clientEmail: string, sign: SavePayload -> string)

  /** A `genericobject.patch` request. */
  datatype ObjectPatch = ObjectPatch(
    resourceId: string,
    header: LocalizedString,
    subheader: LocalizedString,
    textModulesData: seq<TextModule>)

  const SaveUrlPrefix := "https://pay.google.com/gp/v/save/"

  /** The claims `googleSaveUrl` signs. */
  function SavePayloadFor(sa: Account, classId: string, origin: string, objectId: string,
                          garage: Value, floor: Value, stair: Value, lat: Value, lon: Value): (p: SavePayload)
    ensures p.iss == sa.clientEmail && p.aud == "google" && p.typ == "savetoandroidpay"
    ensures p.origins == [origin]
    ensures |p.genericObjects| == 1 && |p.genericClasses| == 1
    ensures p.genericObjects[0].id == objectId
    ensures p.genericObjects[0].classId == classId == p.genericClasses[0].id
    ensures p.genericObjects[0].logoUri == origin + "/logo.png"
    ensures p.genericObjects[0].header == LocalizedString("en-US", "Floor " + ToString(floor))
    ensures p.genericObjects[0].subheader == LocalizedString("en-US", "Garage " + ToString(garage))
    ensures p.genericObjects[0].textModulesData == [TextModule("Stair/Elevator", OrEmpty(stair))]
  {
    var where := [LatLng(lat, lon)];
    SavePayload(
      sa.clientEmail, "google", "savetoandroidpay", [origin],
      [GenericObject(
        objectId, classId, origin + "/logo.png",
        LocalizedString("en-US", "Parking Helper"),
        LocalizedString("en-US", "Garage " + ToString(garage)),
        LocalizedString("en-US", "Floor " + ToString(floor)),
        [TextModule("Stair/Elevator", OrEmpty(stair))],
        where)],
      [GenericClass(classId, "YourCo", "underReview", where)])
  }

  /** `googleSaveUrl`: the save link, the fixed prefix followed by the signed claims. */
  function GoogleSaveUrl(sa: Account, classId: string, origin: string, objectId: string,
                         garage: Value, floor: Value, stair: Value, lat: Value, lon: Value): (url: string)
    ensures |url| >= |SaveUrlPrefix| && url[..|SaveUrlPrefix|] == SaveUrlPrefix
    ensures url[|SaveUrlPrefix|..] == sa.sign(SavePayloadFor(sa, classId, origin, objectId, garage, floor, stair, lat, lon))
  {
    SaveUrlPrefix + sa.sign(SavePayloadFor(sa, classId, origin, objectId, garage, floor, stair, lat, lon))
  }

  /** `googleUpdateObject`: the patch of the object's header, subheader and stair module. */
  function GoogleUpdateObject(objectId: string, garage: Value, floor: Value, stair: Value): (p: ObjectPatch)
    ensures p.resourceId == objectId
  {
    ObjectPatch(
      objectId,
      LocalizedString("en-US", "Floor " + ToString(floor)),
      LocalizedString("en-US", "Garage " + ToString(garage)),
      [TextModule("Stair/Elevator", OrEmpty(stair))])
  }

  /** A patch carries the same header, subheader and stair text as the save object for the same location. */
  lemma PatchMatchesSaveObject(sa: Account, classId: string, origin: string, objectId: string,
                               garage: Value, floor: Value, stair: Value, lat: Value, lon: Value)
    ensures var o := SavePayloadFor(sa, classId, origin, objectId, garage, floor, stair, lat, lon).genericObjects[0];
      var p := GoogleUpdateObject(objectId, garage, floor, stair);
      p.resourceId == o.id && p.header == o.header && p.subheader == o.subheader
        && p.textModulesData == o.textModulesData
  {
  }
}
