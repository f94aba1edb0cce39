/**
 The LOAD message interceptor of the camera receiver and the asset lookup it
 starts (`fetchAssetAndAuth`), as one pure function of the incoming request,
 the asset record the backend returns and the analytics `cameraId` before the
 call. The backend fetch and its JSON parsing are replaced by the `asset`
 parameter; debug logging is dropped.
 */
module Player {
  import opened JsValues
  import opened Messages
  import opened Promise

  /** What the host receives back from the interceptor: the request to load, or a typed error. */
  datatype Reply = Proceed(request: LoadRequest) | Fail(error: ErrorData)

  /**
   Everything one interception leaves behind: the reply, the host's request
   object as it stands afterwards (it is mutated in place), the shared analytics
   `cameraId`, and whether the backend was asked for the asset at all.
   */
  datatype Outcome = Outcome(reply: Reply, request: LoadRequest, cameraId: Option<string>, fetched: bool)

  /** What the executor of `fetchAssetAndAuth` has done once the asset callback returns. */
  datatype Execution = Execution(calls: seq<SettleCall<LoadRequest, string>>, request: LoadRequest, cameraId: Option<string>)

  /** The interceptor's guard: only media with a truthy `entity` goes through the backend. */
  predicate NeedsLookup(req: LoadRequest) {
    req.media.Some? && TruthyString(req.media.value.entity)
  }

  /** The playable URL: the backend's `streamUrl` when it is truthy, the request's entity otherwise. */
  function StreamUrl(asset: AssetRecord, entity: Option<string>): string
    requires TruthyString(asset.streamUrl) || entity.Some?
  {
    if TruthyString(asset.streamUrl) then asset.streamUrl.value else entity.value
  }

  /**
   What `fetchAssetAndAuth` needs of the request: media to rewrite, and a
   defined entity whenever the entity becomes the URL that `endsWith` is called on.
   */
  predicate CanRewrite(req: LoadRequest, asset: AssetRecord) {
    req.media.Some? && (TruthyString(asset.streamUrl) || req.media.value.entity.Some?)
  }

  /**
   The content type for a playable URL, by its ending; the endings carry no
   leading dot. With no known ending the previous content type stays.
   */
  function InferContentType(url: string, previous: Option<string>): (t: Option<string>)
    ensures IsSuffix(HlsSuffix, url) ==> t == Some(HlsType)
    ensures IsSuffix(DashSuffix, url) ==> t == Some(DashType)
    ensures IsSuffix(Mp4Suffix, url) ==> t == Some(Mp4Type)
    ensures !IsSuffix(HlsSuffix, url) && !IsSuffix(DashSuffix, url) && !IsSuffix(Mp4Suffix, url) ==> t == previous
  {
    KnownSuffixesExclusive(url);
    if EndsWith(url, HlsSuffix) then Some(HlsType)
    else if EndsWith(url, DashSuffix) then Some(DashType)
    else if EndsWith(url, Mp4Suffix) then Some(Mp4Type)
    else previous
  }

  /** A URL ends in at most one of the three known endings. */
  lemma KnownSuffixesExclusive(url: string)
    ensures !(IsSuffix(HlsSuffix, url) && IsSuffix(DashSuffix, url))
    ensures !(IsSuffix(HlsSuffix, url) && IsSuffix(Mp4Suffix, url))
    ensures !(IsSuffix(DashSuffix, url) && IsSuffix(Mp4Suffix, url))
  {
  }

  /**
   The request with the resolved stream applied (js/player.js:113-141): the
   URL, the content type its ending implies and fresh display metadata taken
   from the asset. Nothing else about the request changes.
   */
  function Enriched(req: LoadRequest, asset: AssetRecord): (r: LoadRequest)
    requires CanRewrite(req, asset)
    ensures r.media.Some? && r.media.value.contentUrl.Some?
    ensures TruthyString(asset.streamUrl) ==> r.media.value.contentUrl == asset.streamUrl
    ensures !TruthyString(asset.streamUrl) ==> r.media.value.contentUrl == req.media.value.entity
    ensures
      var url := r.media.value.contentUrl.value;
      var t := r.media.value.contentType;
      && (IsSuffix(HlsSuffix, url) ==> t == Some(HlsType))
      && (IsSuffix(DashSuffix, url) ==> t == Some(DashType))
      && (IsSuffix(Mp4Suffix, url) ==> t == Some(Mp4Type))
      && (!IsSuffix(HlsSuffix, url) && !IsSuffix(DashSuffix, url) && !IsSuffix(Mp4Suffix, url) ==>
            t == req.media.value.contentType)
    ensures r.media.value.metadata == Some(GenericMediaMetadata(asset.cameraId, asset.cameraInfo))
    ensures r.(media := req.media) == req
    ensures
      r.media.value.(contentUrl := req.media.value.contentUrl, contentType := req.media.value.contentType,
                     metadata := req.media.value.metadata) == req.media.value
  {
    var media := req.media.value;
    var url := StreamUrl(asset, media.entity);
    req.(media := Some(media.(
      contentUrl := Some(url),
      contentType := InferContentType(url, media.contentType),
      metadata := Some(GenericMediaMetadata(asset.cameraId, asset.cameraInfo)))))
  }

  /**
   The asset callback inside `fetchAssetAndAuth`, as written: a refused asset
   calls `reject` but does not return, so the request is still rewritten, the
   analytics `cameraId` still overwritten and `resolve` still called. The
   promise nevertheless settles by the first call.
   */
  function AssetCallback(req: LoadRequest, asset: AssetRecord): (e: Execution)
    requires CanRewrite(req, asset)
    ensures e.request == Enriched(req, asset)
    ensures e.cameraId == asset.cameraId
    ensures |e.calls| > 0 && e.calls[|e.calls| - 1] == Resolve(e.request)
    ensures Run(Pending, e.calls) ==
      if TruthyBool(asset.allowed) then Fulfilled(e.request) else Rejected("invalid users")
  {
    var denial: seq<SettleCall<LoadRequest, string>> := if TruthyBool(asset.allowed) then [] else [Reject("invalid users")];
    var req' := Enriched(req, asset);
    Execution(denial + [Resolve(req')], req', asset.cameraId)
  }

  /**
   The LOAD interceptor as written. A request without a truthy media entity
   goes back untouched; any other is resolved through the backend, and the
   `.then(...).catch(...)` chain turns a rejected lookup into the typed error.
   */
  function Intercept(req: LoadRequest, asset: AssetRecord, cameraId: Option<string>): (o: Outcome)
    // pass-through or lookup
    ensures o.fetched <==> NeedsLookup(req)
    ensures !NeedsLookup(req) ==> o.reply == Proceed(req) && o.request == req && o.cameraId == cameraId
    // authorisation
    ensures o.reply.Fail? <==> NeedsLookup(req) && !TruthyBool(asset.allowed)
    ensures o.reply.Fail? ==> o.reply.error == AuthenticationError
    ensures o.reply.Proceed? ==> o.reply.request == o.request
    // what every lookup does to the request and to the analytics id, refused or not
    ensures NeedsLookup(req) ==> o.request.media.Some? && o.cameraId == asset.cameraId
    ensures NeedsLookup(req) ==>
      o.request.media.value.metadata == Some(GenericMediaMetadata(asset.cameraId, asset.cameraInfo))
    ensures NeedsLookup(req) && TruthyString(asset.streamUrl) ==> o.request.media.value.contentUrl == asset.streamUrl
    ensures NeedsLookup(req) && !TruthyString(asset.streamUrl) ==> o.request.media.value.contentUrl == req.media.value.entity
    ensures NeedsLookup(req) ==> o.request.media.value.contentUrl.Some?
    ensures NeedsLookup(req) ==>
      var url := o.request.media.value.contentUrl.value;
      var t := o.request.media.value.contentType;
      && (IsSuffix(HlsSuffix, url) ==> t == Some(HlsType))
      && (IsSuffix(DashSuffix, url) ==> t == Some(DashType))
      && (IsSuffix(Mp4Suffix, url) ==> t == Some(Mp4Type))
      && (!IsSuffix(HlsSuffix, url) && !IsSuffix(DashSuffix, url) && !IsSuffix(Mp4Suffix, url) ==>
            t == req.media.value.contentType)
    // nothing else about the request changes
    ensures o.request.(media := req.media) == req
    ensures NeedsLookup(req) ==>
      var m := o.request.media.value;
      m.(contentUrl := req.media.value.contentUrl, contentType := req.media.value.contentType,
         metadata := req.media.value.metadata) == req.media.value
  {
    if !NeedsLookup(req) then
      Outcome(Proceed(req), req, cameraId, false)
    else
      var e := AssetCallback(req, asset);
      match Run(Pending, e.calls)
      case Fulfilled(r) => Outcome(Proceed(r), e.request, e.cameraId, true)
      case Rejected(_) => Outcome(Fail(AuthenticationError), e.request, e.cameraId, true)
  }

  /**
   The asset callback as evidently intended: a refused asset rejects and stops,
   leaving the request and the analytics `cameraId` as they were.
   */
  function IntendedAssetCallback(req: LoadRequest, asset: AssetRecord, cameraId: Option<string>): (e: Execution)
    requires CanRewrite(req, asset)
    ensures Run(Pending, e.calls) ==
      if TruthyBool(asset.allowed) then Fulfilled(e.request) else Rejected("invalid users")
    ensures !TruthyBool(asset.allowed) ==> e.request == req && e.cameraId == cameraId
    ensures TruthyBool(asset.allowed) ==> e.request == Enriched(req, asset) && e.cameraId == asset.cameraId
  {
    if !TruthyBool(asset.allowed) then
      Execution([Reject("invalid users")], req, cameraId)
    else
      AssetCallback(req, asset)
  }

  /** The LOAD interceptor with the early return after `reject` in place. */
  function InterceptIntended(req: LoadRequest, asset: AssetRecord, cameraId: Option<string>): (o: Outcome)
    ensures o.reply.Fail? <==> NeedsLookup(req) && !TruthyBool(asset.allowed)
    ensures o.reply.Fail? ==> o.reply.error == AuthenticationError && o.request == req && o.cameraId == cameraId
    ensures !NeedsLookup(req) || TruthyBool(asset.allowed) ==> o == Intercept(req, asset, cameraId)
  {
    if !NeedsLookup(req) then
      Outcome(Proceed(req), req, cameraId, false)
    else
      var e := IntendedAssetCallback(req, asset, cameraId);
      match Run(Pending, e.calls)
      case Fulfilled(r) => Outcome(Proceed(r), e.request, e.cameraId, true)
      case Rejected(_) => Outcome(Fail(AuthenticationError), e.request, e.cameraId, true)
  }
}
