/**
 Properties of the LOAD interceptor that relate several calls: what the outcome
 does not depend on, why the order of the suffix tests is immaterial, and the
 consequence of the missing `return` after `reject`.
 */
module PlayerProperties {
  import opened JsValues
  import opened Messages
  import opened Promise
  import opened Player

  /** A pass-through request never consults the backend: the asset record cannot influence the outcome. */
  lemma AssetIgnoredWithoutLookup(req: LoadRequest, a1: AssetRecord, a2: AssetRecord, cameraId: Option<string>)
    requires !NeedsLookup(req)
    ensures Intercept(req, a1, cameraId) == Intercept(req, a2, cameraId)
    ensures !Intercept(req, a1, cameraId).fetched
  {
  }

  /**
   The credential is carried along but never tested: replacing it changes the
   outcome only in the credential field of the request itself.
   */
  lemma CredentialsIrrelevant(req: LoadRequest, c: Option<string>, asset: AssetRecord, cameraId: Option<string>)
    ensures
      var o := Intercept(req, asset, cameraId);
      var o' := Intercept(req.(credentials := c), asset, cameraId);
      && o'.request == o.request.(credentials := c)
      && o'.cameraId == o.cameraId
      && o'.fetched == o.fetched
      && (o.reply.Fail? ==> o'.reply == o.reply)
      && (o.reply.Proceed? ==> o'.reply == Proceed(o.reply.request.(credentials := c)))
  {
  }

  /** The suffix tests in the opposite order to the source's. */
  function InferContentTypeReversed(url: string, previous: Option<string>): Option<string> {
    if EndsWith(url, Mp4Suffix) then Some(Mp4Type)
    else if EndsWith(url, DashSuffix) then Some(DashType)
    else if EndsWith(url, HlsSuffix) then Some(HlsType)
    else previous
  }

  /** The three endings exclude one another, so testing them in any order picks the same content type. */
  lemma ContentTypeOrderIrrelevant(url: string, previous: Option<string>)
    ensures InferContentTypeReversed(url, previous) == InferContentType(url, previous)
  {
  }

  /**
   With the executor as written, a refused asset still settles the lookup
   promise as rejected: the `resolve` that follows the `reject` is ignored.
   */
  lemma RefusalSettlesAsRejected(req: LoadRequest, asset: AssetRecord)
    requires CanRewrite(req, asset)
    requires !TruthyBool(asset.allowed)
    ensures Run(Pending, AssetCallback(req, asset).calls) == Rejected("invalid users")
  {
  }

  /**
   A refused asset still overwrites the analytics camera id and rewrites the
   request: here the id changes from `None` to "Cam1" and the content URL is set,
   although the host receives the authentication error.
   */
  lemma RefusalStillMutates()
    ensures
      var media := MediaInfo(Some("abc123"), None, None, None, None, None);
      var req := LoadRequest(1, "LOAD", Some("tok"), Some(media));
      var asset := AssetRecord(Some(false), Some("https://example/cam.m3u8"), Some("Cam1"), Some("Lobby"));
      var o := Intercept(req, asset, None);
      && o.reply == Fail(AuthenticationError)
      && o.cameraId == Some("Cam1")
      && o.request.media.value.contentUrl == Some("https://example/cam.m3u8")
      && o.request != req
  {
  }

  /**
   A voice-assistant request whose asset is authorised and carries an HLS stream
   URL is rewritten to play that stream with the camera's name and description.
   */
  lemma AssistantRequestScenario()
    ensures
      var media := MediaInfo(Some("abc123"), None, None, None, None, None);
      var req := LoadRequest(1, "LOAD", Some("tok"), Some(media));
      var asset := AssetRecord(Some(true), Some("https://example/cam.m3u8"), Some("Cam1"), Some("Lobby"));
      var o := Intercept(req, asset, None);
      && o.reply.Proceed?
      && o.reply.request.media.value.contentUrl == Some("https://example/cam.m3u8")
      && o.reply.request.media.value.contentType == Some(HlsType)
      && o.reply.request.media.value.metadata == Some(GenericMediaMetadata(Some("Cam1"), Some("Lobby")))
  {
  }
}
