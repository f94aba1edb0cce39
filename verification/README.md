# Camera receiver LOAD interception, modelled in Dafny

The camera receiver is a custom application for a Cast receiver. When a voice
assistant asks it to play a camera, the host runtime delivers a LOAD request. The
receiver's message interceptor then does one of two things:

- It passes requests without a media `entity` straight back to the host. These are the web-sender requests.
- It looks up every other request's camera asset on the backend (`fetchAssetAndAuth`).

For a looked-up request, the interceptor checks that the asset is authorised. It
picks the playable URL and infers the content type from the URL's ending. It
fills in the display metadata and records the camera id for analytics. The
host then receives either the rewritten request or a
`LOAD_FAILED` / `AUTHENTICATION_EXPIRED` error.

The model is a set of pure functions and lemmas over immutable datatypes:

- `js_values.dfy` (module `JsValues`) covers optional fields and JavaScript truthiness. It also has `String.prototype.endsWith`, checked against a reference definition of "is a suffix of".
- `promise.dfy` (module `Promise`) covers the settle-once rule of a promise executor. It explains why the `resolve` that follows a `reject` is ignored.
- `messages.dfy` (module `Messages`) holds the load request, media information, metadata, asset record and error data, plus the constants the interceptor uses.
- `player.dfy` (module `Player`) holds the asset callback of `fetchAssetAndAuth` and the LOAD interceptor.
  - `Player.Intercept` maps the incoming request, the asset record and the previous analytics `cameraId` to an `Outcome`.
  - The `Outcome` holds four things: the reply the host receives, the request object as it stands afterwards (the source mutates it in place), the new analytics `cameraId`, and whether the backend was consulted.
- `player_properties.dfy` (module `PlayerProperties`) holds properties that relate several calls. The outcome does not depend on the credential. Without a lookup it does not depend on the asset. The suffix tests can run in any order. A refused asset still mutates state.

The asset callback is modelled as the sequence of `resolve`/`reject` calls it makes. `Promise.Run` then settles that sequence the way a promise does. So the model keeps the source's missing `return` after `reject` exactly as written:

- The request is still rewritten.
- The analytics camera id is still overwritten.
- The host still receives the error.

The code does the following, which is easy to misread; the model follows it:

- A refused asset does not leave `contentUrl` / `contentType` unset. The callback goes on and sets them.
- An unrecognised URL ending does not leave `contentType` unset. The previous value is kept.
- So `contentUrl` can change while `contentType` does not.
- The endings are tested without a leading dot: `m3u8`, `mpd` and `mp4`.

JavaScript values are modelled as follows:

- A string field that may be `undefined` is an `Option<string>`. It is truthy when it is defined and non-empty.
- `allowed` is an `Option<bool>`. It is truthy only when it is `true`.

## Model

| member | source | states |
|---|---|---|
| JsValues.EndsWith | js/player.js:124-128 | `endsWith`, computed character by character from the back, holds exactly when the suffix is the tail of the string |
| Promise.Step | js/player.js:98-106 | one `resolve`/`reject` call settles a pending promise and leaves a settled one as it was |
| Promise.Run | js/player.js:98-150 | after a sequence of executor calls, the promise holds the outcome of the first call, or stays pending if no call was made |
| Promise.LaterCallsIgnored | js/player.js:105-150 | once a promise is settled, later `resolve`/`reject` calls do not change it |
| Player.KnownSuffixesExclusive | js/player.js:124-132 | a URL ends in at most one of `m3u8`, `mpd`, `mp4` |
| Player.InferContentType | js/player.js:122-132 | an `m3u8` ending gives `application/x-mpegURL`, `mpd` gives `application/dash+xml` and `mp4` gives `video/mp4`; any other ending keeps the previous content type |
| Player.Enriched | js/player.js:113-141 | the rewritten request has the URL from a truthy `streamUrl`, or else the media entity; the content type given by that URL's ending, or the previous type; and title and subtitle from the asset's `cameraId` and `cameraInfo`. Every other field of the request and its media stays as it was |
| Player.AssetCallback | js/player.js:104-151 | the asset callback rewrites the request as `Enriched` describes, sets the analytics id to the asset's `cameraId` and always ends by calling `resolve` with the rewritten request. Its promise settles with that request when `allowed` is truthy, and as rejected with `'invalid users'` otherwise |
| Player.Intercept | js/player.js:158-185 | no truthy media entity means no lookup, with the same request returned and nothing changed. Otherwise the host gets the error exactly when `allowed` is falsy, and on every looked-up path (refused or not) the URL, content type, title, subtitle and analytics id are set from the asset. A successful reply is the mutated request, and no other request field changes |
| Player.IntendedAssetCallback | js/player.js:104-151 | with a `return` after `reject`, the promise still settles with the rewritten request when `allowed` is truthy and as rejected otherwise, but a refused asset leaves the request and the analytics id alone |
| Player.InterceptIntended | js/player.js:158-185 | with that `return`, the host still gets the error exactly for refused looked-up assets, but the request and the analytics id stay unchanged; in every other case the outcome equals the source's |
| PlayerProperties.AssetIgnoredWithoutLookup | js/player.js:164-168 | for a pass-through request, the outcome is the same whatever the backend would return, and no lookup is recorded |
| PlayerProperties.CredentialsIrrelevant | js/player.js:170-178 | changing `credentials` changes the outcome only in the request's own `credentials` field |
| PlayerProperties.ContentTypeOrderIrrelevant | js/player.js:124-132 | testing the three endings in the opposite order picks the same content type |
| PlayerProperties.RefusalSettlesAsRejected | js/player.js:105-150 | on a refused asset the lookup promise settles as rejected, even though `resolve` is called afterwards |
| PlayerProperties.RefusalStillMutates | js/player.js:105-141 | for a concrete refused asset, the host gets the error while the request's URL is rewritten and the analytics id becomes the asset's `cameraId` |
| PlayerProperties.AssistantRequestScenario | js/player.js:113-150 | an authorised asset with an HLS `streamUrl` yields a request with that URL, the HLS type and the camera's title and subtitle |

## Left out

- Host start-up wiring (js/player.js:19-88) is not modelled. It covers the supported-command bitmask, playback thresholds, debug-logger levels and `castContext_.start`, which are static values handed to the host with no logic.
- The `fetch('res/camera_info.json')` request and JSON parsing (js/player.js:102-103) are not modelled. The parsed asset record is a parameter. If the fetch or the parse fails, the source's promise never settles, so no error branch is modelled for that.
- A `streamUrl` that is truthy but not a string is not modelled: `endsWith` would throw on it. An `allowed` that is neither a boolean nor absent is not modelled either.
- All `castDebugLogger` calls are left out, including the warning for an unknown content type. They are diagnostics and do not affect results.
- js/analytics.js is not part of this model. Its handlers read live host state and write log lines. Its only link to the interceptor is the `cameraId` setter (js/analytics.js:29-31), which is the `cameraId` field of `Player.Outcome`.
- Overlapping LOAD requests racing on the shared analytics `cameraId` are not modelled. That is a matter of the host's event loop. Each `Player.Intercept` call is one interception in isolation.
- The interceptor returns a pass-through request directly and a looked-up request through a promise. The model does not tell these two apart; both are a `Proceed` reply.
- The first argument of `fetchAssetAndAuth` (`requestUrl`) is never read by the source. The model does not carry it.

## Findings

| source | as written | input that shows it | evidently intended | confidence | as-written member | corrected member |
|---|---|---|---|---|---|---|
| js/player.js:105-107 | `reject('invalid users')` has no `return`. For a refused asset the callback still rewrites the request's URL, content type and metadata, and overwrites the analytics camera id. | entity `"abc123"`; asset `allowed: false`, `streamUrl: "https://example/cam.m3u8"`, `cameraId: "Cam1"`; previous analytics id undefined. The host gets the authentication error, but the analytics id becomes `"Cam1"` and `contentUrl` is set. | Stop after rejecting, leaving the request and the analytics id unchanged | medium, not executed | PlayerProperties.RefusalStillMutates | Player.InterceptIntended |

The properties in the "## Model" table describe `Player.Intercept`, which is the source as written, because that is the behaviour the host and the analytics log observe. `Player.InterceptIntended` is proved equal to it on every input except a refused asset.
