# ParkingBuddy in Dafny

ParkingBuddy remembers where a driver parked. Each NFC tag in a parking garage encodes a URL with the garage, floor, stair and tag id, signed with an HMAC. Scanning the tag opens `/floor`. The server then:

- checks the signature;
- gives the browser a `uid` cookie if it has none;
- stores the latest spot for the (uid, garage) pair;
- links or updates a Google Wallet object on Android;
- answers with a page holding a maps link and the wallet buttons that apply.

An Apple Wallet pass can be created on demand. Apple Wallet then calls back to register for push updates, to unregister, to list serials and to pull the rebuilt pass. The landing page's browser script keeps its own newest-first history of spots in local storage and shows the latest one.

This project models that core and proves properties of it. The modules are:

- `JsValues`: JavaScript values that may be absent, with truthiness and `String()` rendering.
- `Text`: `split`.
- `Utf8`: `Buffer.from`.
- `Hex`: hex encoding.
- `TagClaim`: the tag claim and its HMAC check (server.js).
- `PassSerial`: the pass serial and how it is read back.
- `Store`: the record store the server calls through db.js. It is three maps, with a `Db` class whose methods update them in place.
- `ApplePass` (wallet/apple.js) and `GooglePass` (wallet/google.js): pass content.
- `Server`: the route handlers.
- `ServerProperties`: properties that relate several requests.
- `ParkingClient` (public/parking.js): the browser script.

Each server handler that reads or changes the store appears twice:

- as a function from the store state and the request to the new state and the response;
- as a method that performs the same steps on a `Db` and is proved equal to that function.

`Server.ListSerials` does not touch the store, so it is a function only.

HMAC-SHA256 (RFC 2104) is a parameter `mac` from message to hex digest. JWT signing, `encodeURIComponent` and the passkit archive generator are parameters too. So are the clock, `randomUUID` and `getRandomValues`.

The route handlers model server.js as written: `Server.Scan`, `Server.HandleScan`, `Server.Register`, `Server.Unregister`, `Server.HandleRegister`, `Server.HandleUnregister`, `Server.Pull` and `Server.HandlePull`. So do the helpers they use: `TagClaim.VerifyHmacAsWritten`, `PassSerial.SplitSerial`, `Server.CallbackKey` and `Server.PageOffersAsWritten`.

Where the code as written misbehaves (see "## Findings"), a corrected member stands beside the as-written one: `Server.ScanCorrected`, `Server.PageOffers`, `TagClaim.VerifyHmac`, `PassSerial.DecodeSerial`, `Server.CallbackKeyCorrected` and `Server.PullCorrected`. Each lemma in `ServerProperties` says which of the two it describes; `ServerProperties.CorrectionsKeepStore` shows that the corrections change the scan's answer and never its store.

Two further behaviours of the code are modelled as they are:

- An absent stair is signed as the text `undefined` (server.js:31), not as an empty string. `TagClaim.AbsentStairSignedAsUndefined` states this.
- A scan overwrites the stored spot unconditionally, in arrival order (server.js:62). It does not keep the spot with the later timestamp. `ServerProperties.LastArrivalWins` states this.

## Model

| member | source | states |
|---|---|---|
| JsValues.Truthy | server.js:47 | JavaScript truthiness as `!v` tests it: the falsy values are exactly undefined, null, the empty string and 0 |
| JsValues.ToString | server.js:66 | `String(v)` / `${v}`: "undefined", "null", a string as itself, a number non-empty and starting with "-" exactly when negative |
| JsValues.ToStringNumber | wallet/apple.js:24 | `String(floor)` of an integer below 10^21, such as the fallback floor 4: its decimal digits denote the number, after "-" when it is negative |
| JsValues.OrEmpty | server.js:62 | `v \|\| ''`: empty exactly for a falsy value, otherwise `String(v)` |
| JsValues.NatToString | server.js:170 | String() of a natural number below 10^21, such as the fallback floor 4, is a non-empty string of decimal digits, one digit exactly below 10 |
| JsValues.NatToStringValue | wallet/apple.js:24 | String(floor) of a natural number below 10^21, such as the fallback floor 4, gives digits whose decimal value is that number |
| JsValues.TruthyStr | server.js:62 | a non-empty string is truthy, renders as itself, and `s \|\| ''` is `s` |
| Text.IndexOf | server.js:147 | the first position of the separator: it holds the separator and none occurs before it |
| Text.LastIndexOf | server.js:147 | the last position of the separator: none occurs after it |
| Text.Split | server.js:147 | `split` always yields at least one piece |
| Text.SplitJoin | server.js:147 | joining the pieces of `split` with the separator gives back the string, and no piece contains the separator |
| Text.SplitAfterSeparator | server.js:147 | text free of the separator, then the separator: that text is the first piece and the rest splits on its own |
| Text.FirstPieceIsWhole | server.js:147 | the first piece is the whole string exactly when the separator does not occur |
| Text.FirstPiece | server.js:147 | there is a second piece exactly when the separator occurs; the first piece has no separator and begins the string |
| Utf8.EncodeCharWidth | server.js:33 | each character encodes to 1 to 4 bytes, as many as its lead byte announces |
| Utf8.DecodeEncodeChar | server.js:33 | decoding a character's bytes gives back its code point |
| Utf8.EncodeInjective | server.js:33 | equal `Buffer.from` byte sequences come from equal strings, so byte comparison is string comparison |
| Utf8.EncodeAscii | server.js:33 | an ASCII string encodes to one byte per character |
| Hex.DigitValue | wallet/apple.js:37 | a hex digit's value is below 16 |
| Hex.Encode | wallet/apple.js:37 | the hex text of n bytes has 2n characters, all lower-case hex digits |
| Hex.DigitRoundTrip | wallet/apple.js:37 | every value below 16 reads back from its digit |
| Hex.DecodeEncode | wallet/apple.js:37 | decoding the hex text of any bytes gives the same bytes |
| TagClaim.JoinFour | server.js:31 | four texts joined by "\|" have exactly one pipe between each neighbouring pair |
| TagClaim.MessageIsJoin | server.js:31 | the signed message (`TagClaim.Message`) is String(garage), String(floor), String(stair) and String(tag) joined by "\|" |
| TagClaim.HasRequiredFields | server.js:47 | garage, floor, tag and sig are all present and non-empty; then garage, floor and tag render as non-empty text |
| TagClaim.VerifyHmacAsWritten | server.js:30-34 | accepts exactly when sig is present and equals the hex HMAC of `garage\|floor\|stair\|tag`; throws exactly when sig is present and its byte length differs from the digest's |
| TagClaim.VerifyHmac | server.js:30-34 | corrected check: true exactly when sig is present and equals the digest, which is exactly when the as-written check accepts |
| TagClaim.HexIsAscii | server.js:32-33 | the buffer of a hex digest has one byte per character |
| TagClaim.ShortSignatureThrows | server.js:33 | as written, the signature "00" against a 64-character digest throws; the corrected check rejects it |
| TagClaim.AbsentStairSignedAsUndefined | server.js:31 | an absent stair is signed as the text "undefined", not as an empty stair |
| TagClaim.SplitFour | server.js:31 | four pipe-free texts joined by pipes split back into the same four |
| TagClaim.MessageDeterminesFields | server.js:31 | when no field contains a pipe, the signed message splits back into exactly its four fields |
| TagClaim.PipeInFieldIsAmbiguous | server.js:31 | a pipe inside a field lets one message, and so one signature, stand for two different claims |
| PassSerial.SerialNumber | wallet/apple.js:10 | the serial is the uid, one hyphen, then String(garage), and nothing else |
| PassSerial.SplitSerial | server.js:147 | as written, `split('-')`: the uid is a hyphen-free prefix of the serial; a garage is read exactly when the serial has a hyphen, and it is hyphen-free with uid + "-" + garage beginning the serial, followed by the end of the serial or a hyphen; otherwise the uid is the whole serial |
| PassSerial.DecodeSerial | server.js:147 | corrected decoding: a garage is found exactly when the serial has a hyphen, and then uid + "-" + garage is the serial and the garage has no hyphen; otherwise the uid is the whole serial |
| PassSerial.SplitSerialRoundTripIff | server.js:147 | as written, `split('-')` recovers the uid and garage exactly when neither contains a hyphen |
| PassSerial.UuidSerialMisread | server.js:53 | as written, a serial whose uid is a `randomUUID` reads back as the UUID's first group as uid and its second group as garage, never the originals |
| PassSerial.DecodeSerialRoundTrip | wallet/apple.js:10 | corrected decoding recovers the uid and garage whenever the garage has no hyphen |
| Store.Merge | server.js:81 | upsert-merge: supplied fields replace, the others keep their stored values (absent for a new record) |
| Store.Upserted | server.js:59 | an upsert stores the merged record under its key and returns it; other records and maps are unchanged |
| Store.SpotUpdated | server.js:62 | the key's spot becomes the new one; every other key's spot, the users and the registrations are unchanged |
| Store.PushAdded | server.js:148 | the token is stored under (key, device); every other registration, the users and the spots are unchanged |
| Store.PushRemoved | server.js:156 | no registration under (key, device) remains; every other registration, the users and the spots are unchanged |
| Store.AddThenRemovePush | server.js:142-158 | register then unregister leaves no entry for (uid, garage, device) and the same store as unregistering alone; with no prior entry, the store is unchanged |
| Store.Db.GetUser | server.js:58 | returns the stored record under the key, if any |
| Store.Db.UpsertUser | server.js:59 | the store becomes the upsert result and the returned record is the merged one |
| Store.Db.UpdateSpot | server.js:62 | the spot under the key is overwritten; nothing else changes |
| Store.Db.GetSpot | server.js:170 | returns the stored spot under the key, if any |
| Store.Db.AddApplePush | server.js:148 | the push token is stored under (key, device); nothing else changes |
| Store.Db.RemoveApplePush | server.js:156 | the entry under (key, device) is removed; nothing else changes |
| ApplePass.CryptoRandom | wallet/apple.js:36-38 | n random bytes become 2n hex characters that decode back to those bytes |
| ApplePass.PassFor | wallet/apple.js:9-29 | serial = uid + "-" + garage; the barcode message is the serial; primary field = String(floor); first secondary field = stair or ""; second = garage; team id, pass type id and web-service URL passed through; 48-character token |
| ApplePass.ConcatAppend | wallet/apple.js:33 | concatenating two runs of chunks is the concatenation of each |
| ApplePass.ConcatInOrder | wallet/apple.js:31-33 | each chunk appears whole in the archive, right after the chunks before it |
| ApplePass.CreateApplePass | wallet/apple.js:9-34 | returns serial uid + "-" + garage and the archive of the generated pass's chunks, in stream order |
| GooglePass.SavePayloadFor | wallet/google.js:8-32 | issuer email, audience and type; origins exactly [origin]; one object with the given id and class id, which is also the one class's id; logo origin + "/logo.png"; header "Floor " + floor; subheader "Garage " + garage; stair module stair or "" |
| GooglePass.GoogleSaveUrl | wallet/google.js:33-34 | the save URL is "https://pay.google.com/gp/v/save/" followed by the signed payload |
| GooglePass.GoogleUpdateObject | wallet/google.js:43-50 | the patch targets the given object id |
| GooglePass.PatchMatchesSaveObject | wallet/google.js:43-50 | the patch's id, header, subheader and stair module equal the save object's for the same location |
| Server.IsAndroid | server.js:36 | true exactly when "Android", in any ASCII case, occurs in the user agent |
| Server.MapsUrl | server.js:38-42 | a Google Maps search exactly when the user agent is Android, otherwise an Apple Maps search; in both cases the prefix is followed by the encoded title |
| Server.Where | server.js:66 | "Floor " and String(floor) first; then " • " and String(stair) exactly when the stair is truthy |
| Server.Title | server.js:66 | "Parked — " followed by the location text, for every floor and stair |
| Server.Heading | server.js:99 | "Saved: " followed by the same location text, for every floor and stair |
| Server.ObjectId | server.js:71 | the issuer id, a dot, then the pass serial uid + "-" + garage |
| Server.ClassId | server.js:74 | the issuer id, a dot, then a suffix with no hyphen |
| ServerProperties.ClassIdIsNotObjectId | server.js:71-74 | the class id never equals an object id of the same issuer |
| Server.ScanUid | server.js:51-54 | the uid cookie when it is set (then non-empty), otherwise the freshly generated UUID |
| Server.ScanSpot | server.js:62 | the recorded spot holds the floor as text and the scan time; its stair is empty exactly when the claim's stair is falsy, otherwise the stair as text |
| Server.PageOffersAsWritten | server.js:87-109 | as written, both flags read the record after the linkage write: the Apple form exactly off Android without an Apple serial, otherwise "Apple linked", on Android too; the Google save link exactly on Android when that record is unlinked; "Google linked" exactly on Android when it is linked; nothing Google off Android |
| Server.PageOffers | server.js:87-109 | corrected offers: Google save link exactly on Android before any linkage; "Google linked" exactly on Android when already linked; Apple form exactly off Android without an Apple serial; "Apple linked" exactly off Android with one; nothing Apple on Android |
| Server.RecordScan | server.js:57-84 | get-or-create the user, overwrite the spot, and on Android link the Google object when none is linked; every other key and the registrations unchanged |
| Server.Scan | server.js:45-112 | as written: a missing field or a wrong signature is answered 400, and a signature whose length differs from the digest's raises with no answer, both with the store unchanged. Otherwise the store is as RecordScan leaves it, and the cookie is the fresh UUID exactly when none came in. The heading and maps link are the claim's. Exactly on Android with a linked object, the patch for that object with the scanned garage, floor and stair is sent. The Apple form appears exactly off Android without an Apple serial, "Apple linked" otherwise. On Android the page always says "Google linked" |
| Server.ScanCorrected | server.js:45-112 | corrected: anything but a verified claim is answered 400 with the store unchanged. Otherwise the store, cookie, heading, maps link and patch are as for Scan. The Google save link appears exactly on Android when the record read before the scan was unlinked, and "Google linked" exactly when it was linked. The Apple form appears exactly off Android without an Apple serial, "Apple linked" exactly off Android with one, and nothing Apple on Android |
| Server.HandleScan | server.js:45-112 | performing the handler's steps as written on the store yields Scan's new store and response |
| Server.CreateApple | server.js:115-131 | 400 "Missing" without uid or garage and the store unchanged; otherwise appleSerial = uid + "-" + garage is recorded (Google linkage kept), the archive is returned as a pkpass attachment, and nothing else changes |
| Server.HandleCreateApple | server.js:115-131 | performing the handler's steps on the store yields CreateApple's new store and response |
| Server.CallbackKey | server.js:147 | as written: a key exactly when the serial has a hyphen; its uid and garage are hyphen-free and uid + "-" + garage begins the serial, followed by the end of the serial or a hyphen |
| Server.CallbackKeyCorrected | server.js:147 | corrected: a key exactly when the serial has a hyphen; the garage is hyphen-free and uid + "-" + garage is the whole serial |
| Server.Register | server.js:142-150 | always 201; the push token is stored under the key `split('-')` reads from the serial (CallbackKey) and the device; with no hyphen, the store is unchanged |
| Server.Unregister | server.js:153-158 | always 200; the entry under the key `split('-')` reads from the serial (CallbackKey) and the device is removed; with no hyphen, the store is unchanged |
| Server.HandleRegister | server.js:142-150 | the handler's steps yield Register's store and status |
| Server.HandleUnregister | server.js:153-158 | the handler's steps yield Unregister's store and status |
| Server.ListSerials | server.js:161-163 | always an empty serial list, stamped with the current time |
| Server.PulledLocation | server.js:170 | the stored spot's floor and stair when the `split('-')` key has one, otherwise floor 4 and stair "A" |
| Server.Pull | server.js:166-178 | as written: the response is a pkpass whose body is the archive of the pass rebuilt for the `split('-')` reading of the serial |
| Server.PullCorrected | server.js:166-178 | corrected: the same, for the serial split at its last hyphen |
| Server.HandlePull | server.js:166-178 | the handler's steps, which change nothing, yield Pull's response |
| ServerProperties.GoogleLinkageExclusive | server.js:70-84 | on Android, the first scan records the object id issuer.uid-garage and sends no patch; later scans send the patch for the linked object with the scanned garage, floor and stair, and leave the record alone; other devices touch neither |
| ServerProperties.CorrectionsKeepStore | server.js:45-112 | the corrected handler leaves the same store as the handler as written on every input; for an accepted scan it also sets the same cookie, heading, maps link and patch |
| ServerProperties.RaisedOnlyAsWritten | server.js:33 | a wrong-length signature raises with no answer and the store unchanged as written, and is answered 400 once corrected |
| ServerProperties.RecordTwice | server.js:57-84 | recording the same scan twice leaves the store as recording the second one alone |
| ServerProperties.ReplayEqualsSingleScan | server.js:45-112 | resending the same scan request (same claim, same uid cookie, same fresh UUID) leaves the store as one scan at the later time |
| ServerProperties.LastArrivalWins | server.js:62 | of two scans for the same (uid, garage), the stored spot is the one that arrived last, whatever the timestamps |
| ServerProperties.PulledPassShowsSpot | server.js:169-172 | corrected decoding: a pull for a serial whose (uid, garage) has a stored spot shows that spot's floor and stair (garage without a hyphen) |
| ServerProperties.SplitPulledPassShowsSpot | server.js:169-172 | as written, the same holds when neither the uid nor the garage contains a hyphen |
| ServerProperties.PullShowsLatestScan | server.js:166-178 | corrected decoding: after an accepted scan, a pull of its serial shows the scanned floor and stair (garage without a hyphen) |
| ServerProperties.PullAfterScanAsWritten | server.js:166-178 | as written, after an accepted scan by a `randomUUID` uid, a pull of its pass's serial is rebuilt for the UUID's first two groups and, with nothing stored there, shows floor "4" and stair "A" instead of the scanned spot |
| ServerProperties.PullAfterMoveShowsNewSpot | server.js:166-178 | corrected decoding: after scans at floor 7 stair B then floor 2 without a stair, a pull shows floor "2" and an empty stair |
| ServerProperties.PullWithoutSpotFallsBack | server.js:170 | as written, with no stored spot under the `split('-')` key, a pull shows floor "4" and stair "A" |
| ServerProperties.PullReadsSplitKey | server.js:166-172 | as written, for any serial whose `split('-')` key has a stored spot, the pulled pass shows serial uid + "-" + garage of that key and the stored floor and stair |
| ServerProperties.CreatedSerialFindsKey | server.js:125 | corrected decoding: the serial recorded at creation leads the callbacks back to the same (uid, garage) (garage without a hyphen) |
| ServerProperties.CreatedSerialMisleadsCallbacks | server.js:125 | as written, for a `randomUUID` uid the recorded serial leads the callbacks to the UUID's first two groups, never to the pass's own (uid, garage) |
| ServerProperties.RegisterThenUnregister | server.js:142-158 | register then unregister leaves no registration and the same store as unregistering alone; with none before, the store is unchanged |
| ServerProperties.AsWrittenGoogleSaveNeverOffered | server.js:80-88 | as written, the record read for needsGoogle is always linked on Android, so the Google save link is never shown |
| ServerProperties.AsWrittenAppleLinkedOnAndroid | server.js:87-108 | as written, an Android page says "Apple Wallet linked" even without an Apple serial |
| ServerProperties.SampleClaimAccepted | server.js:47 | the claim G1/4/A/T1 signed with the secret passes the guard |
| ServerProperties.SampleWhere | server.js:66 | floor 4, stair A reads "Floor 4 • A", the heading "Saved: Floor 4 • A" and the title "Parked — Floor 4 • A" |
| ServerProperties.FirstAndroidScan | server.js:45-112 | as written, any first Android scan (object not yet linked) shows the claim's heading and Google Maps link, "Apple linked" and "Google linked", and sends no patch |
| ServerProperties.FirstAndroidScanCorrected | server.js:45-112 | corrected, the same scan offers the Google save link for this (uid, garage)'s object, nothing Apple, and no patch |
| ServerProperties.AndroidScanScenario | server.js:45-112 | as written, a first Android scan of the sample tag shows "Saved: Floor 4 • A" and a Google Maps link for the title, but claims both wallets linked, with no save link and no patch |
| ServerProperties.AndroidScanScenarioCorrected | server.js:45-112 | corrected, the same sample scan offers the Google save link for this object and nothing Apple |
| ServerProperties.AppleScanScenario | server.js:45-112 | as written, the same scan elsewhere, without an Apple pass, offers the Apple form with the claim's values and nothing Google |
| ParkingClient.SearchParam | public/parking.js:9-11 | null exactly when no pair has the name; otherwise the value of the first pair with it |
| ParkingClient.ParseParams | public/parking.js:6-13 | garage, floor and stair are the query's values for those names |
| ParkingClient.Read | public/parking.js:31-37 | the stored array, or the empty list when the item is missing, empty or does not parse |
| ParkingClient.Stamp | public/parking.js:23-26 | the entry keeps the spot's fields and adds the timestamp |
| ParkingClient.Saved | public/parking.js:15-29 | the stored list becomes the stamped spot followed by every earlier entry in order |
| ParkingClient.SpotHistory.SaveSpot | public/parking.js:15-29 | the stored item becomes Saved of the old one |
| ParkingClient.SpotHistory.GetSpots | public/parking.js:31-37 | returns Read of the stored item |
| ParkingClient.StatusText | public/parking.js:50-56 | the placeholder is shown exactly for an empty history; otherwise the status line of the first entry |
| ParkingClient.StatusLine | public/parking.js:55 | "Current: " then String(garage), then ", Floor " + String(floor) + ", Stair ", then String(stair) last |
| ParkingClient.OnContentLoaded | public/parking.js:39-56 | a spot is saved exactly when the floor parameter is truthy; the status is the text for the history read back, or nothing without a status element |
| ParkingClient.StatusAfterSave | public/parking.js:41-56 | loading a page with a floor shows that page's garage, floor and stair |
| ParkingClient.NoFloorNoSave | public/parking.js:41 | no spot is saved exactly when the query has no floor parameter or its first floor value is empty |
| ParkingClient.NewestFirst | public/parking.js:23 | the stamped saves, last one first, one entry per save |
| ParkingClient.NewestFirstPeel | public/parking.js:23 | the first of several saves comes last in the newest-first list, after all later saves |
| ParkingClient.HistoryNewestFirst | public/parking.js:15-29 | after any saves, the history is those saves newest first, followed by what was stored before |
| ParkingClient.StatusShowsLastSave | public/parking.js:50-56 | after one or more saves, the status names the last one |

## Left out

- public/sw.js is not part of this model. It is service-worker cache plumbing, and registering it (public/parking.js:1-3) is a browser call.
- The HMAC-SHA256 digest, `randomUUID`, `getRandomValues` and `Date.now()`/`toISOString()` are parameters. Their outputs are not modelled.
- JWT RS256 signing, the `googleapis` client, the `passkit-generator` archive build and certificate reads are parameters (`sign`, `generate`), or the request they would send.
- db.js is not part of this model. It is taken to be get, upsert-merge, overwrite and delete on three maps, one call at a time. Durability and key encoding are not modelled.
- Server.Register, Server.Unregister, Server.Pull: when a serial has no hyphen, the source passes an undefined garage to db.js. The model then stores nothing, removes nothing and finds no spot, since db.js's behaviour there is unknown.
- Server.Scan: a failure of the awaited Google patch call is not modelled. The patch is returned as the request it sends. What the framework does with the promise rejected by a thrown RangeError is not modelled either; `Raised` stands for "no answer, nothing stored".
- Server.Scan: the cookie's options, and all HTML markup beyond the heading, the maps link and which wallet elements appear.
- `encodeURIComponent` is a parameter. Percent-decoding of the query string is not modelled: `ParkingClient.Query` holds decoded pairs.
- `Number(lat)`/`Number(lon)` float conversion: the location carries the environment values as given.
- Concurrent requests, such as two first scans racing to create the same record, are not modelled. Each handler is one sequential step.
- Express routing, body parsing, `app.listen` and the static logo route are not modelled. A repeated query parameter becoming an array is not modelled either: each claim field is one value or absent.
- ParkingClient: stored text that is valid JSON but not an array of spots is not modelled. The script never writes such text. Spot entries lacking fields are not modelled either.
- Strings are sequences of Unicode scalar values. JavaScript strings with lone UTF-16 surrogates, which `Buffer.from` would replace by U+FFFD, are not represented.
- JsValues.ToString: numbers are integers rendered in plain decimal. JavaScript renders integers from 10^21 on in exponent form and has fractions; neither is a value of this model. The only number the server writes is the fallback floor 4.
- Unset environment variables (rendered "undefined" in ids and URLs) are not modelled. Configuration values are strings.

## Findings

| source | as written | input that shows it | evidently intended | confidence | as-written member | corrected member |
|---|---|---|---|---|---|---|
| server.js:147 | `serialNumber.split('-')` takes the first two hyphen-separated pieces as uid and garage | uid = any `randomUUID`, e.g. 8-4-4-4-12 hex groups: the serial reads back as (first group, second group) | recover the uid and garage the serial was built from (wallet/apple.js:10) | not executed | PassSerial.UuidSerialMisread | PassSerial.DecodeSerialRoundTrip |
| server.js:80-88 | `needsGoogle` is read from `user` after line 81 stored the object id, so it is always false | first Android scan of a tag: the page shows "Google Wallet linked" and no save link | offer the save link when this scan had to link the object | not executed | ServerProperties.FirstAndroidScan | ServerProperties.FirstAndroidScanCorrected |
| server.js:87-108 | the else branch of `needsApple` prints "Apple Wallet linked ✓" whenever the Apple form is not shown, including every Android page | any Android scan by a user with no Apple pass | show the Apple note only off Android when an Apple serial is linked | not executed | ServerProperties.AsWrittenAppleLinkedOnAndroid | Server.PageOffers |
| server.js:33 | `timingSafeEqual` throws a RangeError when the two buffers differ in length, so a wrong-length signature raises instead of being rejected | sig = "00" against a 64-character digest | answer 400, as for any other wrong signature | not executed | TagClaim.ShortSignatureThrows | ServerProperties.RaisedOnlyAsWritten |
