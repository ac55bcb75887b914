/** The plain data declarations of the Android bridge's models package
    (ULinkConfig, ULinkParameters, ULinkResolvedData, ULinkResponse,
    ULinkSessionResponse, SessionState, LinkType, SocialMediaTags). */
module BridgeModels {
  import opened Common

  /** A Kotlin `Map<String, String>` in iteration order. */
  type StringMap = seq<(string, string)>

  datatype SessionState = Inactive | Starting | Active | Ending | Error

  datatype LinkType = Dynamic | Unified

  datatype SocialMediaTags = SocialMediaTags(
    ogTitle: Option<string>,
    ogDescription: Option<string>,
    ogImage: Option<string>)

  /** A value of a `Map<String, Any>` built by the bridge: text, or a nested map. */
  datatype Raw = RawText(text: string) | RawMap(entries: seq<(string, Raw)>)

  datatype ULinkParameters = ULinkParameters(
    linkType: string,
    domain: string,
    slug: Option<string>,
    iosUrl: Option<string>,
    androidUrl: Option<string>,
    iosFallbackUrl: Option<string>,
    androidFallbackUrl: Option<string>,
    fallbackUrl: Option<string>,
    parameters: Option<StringMap>,
    socialMediaTags: Option<SocialMediaTags>,
    metadata: Option<StringMap>)

  datatype ULinkResolvedData = ULinkResolvedData(
    slug: Option<string>,
    iosUrl: Option<string>,
    androidUrl: Option<string>,
    iosFallbackUrl: Option<string>,
    androidFallbackUrl: Option<string>,
    fallbackUrl: Option<string>,
    parameters: Option<StringMap>,
    socialMediaTags: Option<SocialMediaTags>,
    metadata: Option<StringMap>,
    linkType: LinkType,
    rawData: Option<seq<(string, Raw)>>)

  datatype ULinkConfig = ULinkConfig(
    apiKey: string,
    baseUrl: string,
    debug: bool,
    enableDeepLinkIntegration: bool,
    enableAnalytics: bool,
    enableCrashReporting: bool,
    timeout: int,
    retryCount: int,
    metadata: Option<StringMap>)

  datatype ULinkResponse = ULinkResponse(
    success: bool,
    url: Option<string>,
    error: Option<string>,
    data: Option<ULinkResolvedData>)

  datatype ULinkSessionResponse = ULinkSessionResponse(
    success: bool,
    sessionId: Option<string>,
    error: Option<string>)
}
