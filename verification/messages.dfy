/**
 The records the LOAD interceptor reads and writes: the host's load request and
 its media information, the asset record returned by the camera backend, and the
 typed error the host receives when the asset is not authorised.
 Only the fields the interceptor touches, plus a few it must leave alone, are kept.
 */
module Messages {
  import opened JsValues

  /** `GenericMediaMetadata`: the display strings shown by the receiver UI and the Home app. */
  datatype Metadata = GenericMediaMetadata(title: Option<string>, subtitle: Option<string>)

  /**
   `MediaInformation` of a load request. `entity` is the content reference a
   voice assistant sends; `contentId` and `streamType` stand for the fields the
   interceptor never touches.
   */
  datatype MediaInfo = MediaInfo(
    entity: Option<string>,
    contentId: Option<string>,
    streamType: Option<string>,
    contentUrl: Option<string>,
    contentType: Option<string>,
    metadata: Option<Metadata>)

  /** `LoadRequestData`: the inbound LOAD message under interception. */
  datatype LoadRequest = LoadRequest(
    requestId: int,
    requestType: string,
    credentials: Option<string>,
    media: Option<MediaInfo>)

  /** The parsed `camera_info.json` record returned by the backend. */
  datatype AssetRecord = AssetRecord(
    allowed: Option<bool>,
    streamUrl: Option<string>,
    cameraId: Option<string>,
    cameraInfo: Option<string>)

  /** `cast.framework.messages.ErrorType`, restricted to the value the interceptor uses. */
  datatype ErrorType = LoadFailed

  /** `cast.framework.messages.ErrorReason`, restricted to the value the interceptor uses. */
  datatype ErrorReason = AuthenticationExpired

  /** `ErrorData`: the typed error a message interceptor hands back to the host. */
  datatype ErrorData = ErrorData(errorType: ErrorType, reason: ErrorReason)

  /** The one error the interceptor produces: a load failure because the credential was refused. */
  const AuthenticationError: ErrorData := ErrorData(LoadFailed, AuthenticationExpired)

  /** The MIME types the interceptor assigns, and the URL endings (without a leading dot) that select them. */
  const HlsSuffix: string := "m3u8"
  const DashSuffix: string := "mpd"
  const Mp4Suffix: string := "mp4"
  const HlsType: string := "application/x-mpegURL"
  const DashType: string := "application/dash+xml"
  const Mp4Type: string := "video/mp4"
}
