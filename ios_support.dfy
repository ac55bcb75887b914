/** The pure helpers of the iOS plugin (FlutterUlinkSdkPlugin.swift): the
    link-data validity test and what a stream emits for resolved data, the
    detailed error message built from a failed response, the mapping of SDK
    errors onto Flutter error codes, the session-state names, and the two
    argument parsers. */
module IosSupport {
  import opened Common

  // ---------------------------------------------------------------------------
  // Resolved link data and the link streams.

  /** The fields of the iOS SDK's resolved link data that the plugin reads. */
  datatype ResolvedData = ResolvedData(
    slug: Option<string>,
    iosUrl: Option<string>,
    androidUrl: Option<string>,
    iosFallbackUrl: Option<string>,
    androidFallbackUrl: Option<string>,
    fallbackUrl: Option<string>,
    parameters: Option<Fields>,
    metadata: Option<Fields>,
    linkType: string)

  predicate Present<T>(o: Option<seq<T>>) {
    o.Some? && |o.value| > 0
  }

  /** `isValidLinkData`: the checks in the order the source makes them. Data is
      valid exactly when one of slug, parameters, iosUrl, androidUrl, fallbackUrl
      and metadata is present and non-empty. */
  predicate IsValidLinkData(d: ResolvedData): (b: bool)
    ensures b <==> (Present(d.slug) || Present(d.parameters) || Present(d.iosUrl) || Present(d.androidUrl)
                    || Present(d.fallbackUrl) || Present(d.metadata))
  {
    if Present(d.slug) then true
    else if Present(d.parameters) then true
    else if Present(d.iosUrl) then true
    else if Present(d.androidUrl) then true
    else if Present(d.fallbackUrl) then true
    else if Present(d.metadata) then true
    else false
  }

  /** The platform fallback URLs play no part in validity. */
  lemma FallbackUrlsIgnored(d: ResolvedData, ios: Option<string>, android: Option<string>)
    ensures IsValidLinkData(d.(iosFallbackUrl := ios, androidFallbackUrl := android)) == IsValidLinkData(d)
  {
  }

  /** What a link stream receives. */
  datatype StreamItem = LinkEvent(data: ResolvedData) | LinkError(code: string, message: string)

  /** `handleStreamLinkData`: valid data as an event, anything else as an
      INVALID_LINK_DATA error naming the stream. */
  function StreamEmission(d: ResolvedData, streamType: string): (r: StreamItem)
    ensures r.LinkEvent? <==> IsValidLinkData(d)
    ensures r.LinkEvent? ==> r.data == d
    ensures r.LinkError? ==> (r.code == "INVALID_LINK_DATA"
      && r.message == "Failed to resolve " + streamType + " link: received invalid or empty link data")
  {
    if IsValidLinkData(d) then LinkEvent(d)
    else LinkError("INVALID_LINK_DATA", "Failed to resolve " + streamType + " link: received invalid or empty link data")
  }

  // ---------------------------------------------------------------------------
  // buildDetailedErrorMessage.

  /** " (HTTP n)" when the base does not mention "HTTP " and a status code is given. */
  function HttpPart(base: string, data: Fields): (r: string)
    ensures r != "" <==> !Contains(base, "HTTP ") && AsInt(Lookup(data, "statusCode")).Some?
  {
    if !Contains(base, "HTTP ") && AsInt(Lookup(data, "statusCode")).Some? then
      " (HTTP " + IntToString(AsInt(Lookup(data, "statusCode")).value) + ")"
    else ""
  }

  /** " - Backend: …" when the base does not mention "Backend:", from `message`
      when it is a string and otherwise from `error`. */
  function BackendPart(base: string, data: Fields): (r: string)
    ensures r != "" <==> !Contains(base, "Backend:")
                         && (AsString(Lookup(data, "message")).Some? || AsString(Lookup(data, "error")).Some?)
    ensures r != "" && AsString(Lookup(data, "message")).Some? ==>
      r == " - Backend: " + AsString(Lookup(data, "message")).value
  {
    if Contains(base, "Backend:") then ""
    else if AsString(Lookup(data, "message")).Some? then " - Backend: " + AsString(Lookup(data, "message")).value
    else if AsString(Lookup(data, "error")).Some? then " - Backend: " + AsString(Lookup(data, "error")).value
    else ""
  }

  function DetailsPart(data: Fields): (r: string)
    ensures r != "" <==> AsString(Lookup(data, "details")).Some?
  {
    if AsString(Lookup(data, "details")).Some? then " - Details: " + AsString(Lookup(data, "details")).value else ""
  }

  /** A message that already reads like "HTTP 404: …" is kept as it is. */
  predicate AlreadyDetailed(base: string) {
    IsPrefix("HTTP ", base) && Contains(base, ":")
  }

  /** `buildDetailedErrorMessage`: the base, then the HTTP status, then the backend
      message, then the details, each only when the response data has it; the
      backend part is decided on the base alone, because the HTTP part can never
      complete a "Backend:" in the message. */
  method BuildDetailedErrorMessage(baseMessage: string, responseData: Option<Fields>) returns (errorMessage: string)
    ensures AlreadyDetailed(baseMessage) || responseData.None? ==> errorMessage == baseMessage
    ensures !AlreadyDetailed(baseMessage) && responseData.Some? ==>
      errorMessage == baseMessage + HttpPart(baseMessage, responseData.value)
                      + BackendPart(baseMessage, responseData.value) + DetailsPart(responseData.value)
  {
    if IsPrefix("HTTP ", baseMessage) && Contains(baseMessage, ":") {
      return baseMessage;
    }
    errorMessage := baseMessage;
    if responseData.None? {
      return errorMessage;
    }
    var data := responseData.value;
    errorMessage := AppendHttpStatus(errorMessage, data);
    errorMessage := AppendBackendMessage(baseMessage, errorMessage, data);
    var details := AsString(Lookup(data, "details"));
    if details.Some? {
      errorMessage := errorMessage + " - Details: " + details.value;
    }
  }

  /** The HTTP step of `buildDetailedErrorMessage`. */
  method AppendHttpStatus(message: string, data: Fields) returns (r: string)
    ensures r == message + HttpPart(message, data)
    ensures Contains(r, "Backend:") == Contains(message, "Backend:")
  {
    r := message;
    if !Contains(r, "HTTP ") {
      var statusCode := AsInt(Lookup(data, "statusCode"));
      if statusCode.Some? {
        var http := " (HTTP " + IntToString(statusCode.value) + ")";
        StatusPartHasNoB(statusCode.value);
        HttpKeepsBackend(r, http);
        r := r + http;
      }
    }
  }

  /** The backend step of `buildDetailedErrorMessage`, on a message that extends
      `base` without changing whether it mentions "Backend:". */
  method AppendBackendMessage(ghost base: string, message: string, data: Fields) returns (r: string)
    requires Contains(message, "Backend:") == Contains(base, "Backend:")
    ensures r == message + BackendPart(base, data)
  {
    var part := "";
    if !Contains(message, "Backend:") {
      var backendMessage := AsString(Lookup(data, "message"));
      var backendError := AsString(Lookup(data, "error"));
      if backendMessage.Some? {
        part := " - Backend: " + backendMessage.value;
      } else if backendError.Some? {
        part := " - Backend: " + backendError.value;
      }
    }
    assert part == BackendPart(base, data);
    r := message + part;
  }

  /** The detailed message always starts with the base message. */
  lemma DetailedMessageExtendsBase(base: string, data: Fields)
    ensures IsPrefix(base, base + HttpPart(base, data) + BackendPart(base, data) + DetailsPart(data))
  {
    var r := base + HttpPart(base, data) + BackendPart(base, data) + DetailsPart(data);
    assert r[..|base|] == base;
  }

  /** A text without the first character of `t` does not contain `t`. */
  lemma {:induction false} NotContainsWithoutFirst(b: string, t: string)
    requires |t| > 0 && t[0] !in b
    ensures !Contains(b, t)
    decreases |b|
  {
    if |b| > 0 {
      NotContainsWithoutFirst(b[1..], t);
    }
  }

  /** Appending `b` cannot create an occurrence of `t` when `b` lacks `t`'s first
      character and `t` has `b`'s first character nowhere after its start. */
  lemma {:induction false} ContainsAppend(a: string, b: string, t: string)
    requires |t| > 0 && t[0] !in b
    requires |b| > 0 ==> forall k :: 1 <= k < |t| ==> t[k] != b[0]
    ensures Contains(a + b, t) <==> Contains(a, t)
    decreases |a|
  {
    if a == [] {
      assert a + b == b;
      NotContainsWithoutFirst(b, t);
    } else {
      assert (a + b)[1..] == a[1..] + b;
      ContainsAppend(a[1..], b, t);
      if |t| <= |a| {
        assert (a + b)[..|t|] == a[..|t|];
      } else if |t| <= |a + b| {
        assert (a + b)[..|t|][|a|] == b[0];
        assert t[|a|] != b[0];
      }
    }
  }

  /** The HTTP part, which starts with a space and has no 'B', never completes a
      "Backend:" in the message it is appended to. */
  lemma HttpKeepsBackend(base: string, http: string)
    requires |http| > 0 && http[0] == ' ' && 'B' !in http
    ensures Contains(base + http, "Backend:") <==> Contains(base, "Backend:")
  {
    ContainsAppend(base, http, "Backend:");
  }

  /** The HTTP part is made of fixed text, a sign and digits, so it has no 'B'. */
  lemma StatusPartHasNoB(code: int)
    ensures 'B' !in " (HTTP " + IntToString(code) + ")"
  {
    var t := IntToString(code);
    forall k | 0 <= k < |t|
      ensures t[k] != 'B'
    {
      if k > 0 {
        assert t[k] == t[1..][k - 1];
      }
    }
  }

  // ---------------------------------------------------------------------------
  // mapULinkErrorToFlutter.

  /** The cases of the iOS SDK's `ULinkError`. */
  datatype ULinkErrorKind =
    | NotInitialized | InvalidConfiguration | NetworkError | InvalidURL | InvalidResponse
    | HttpError | InvalidParameters | SessionError | InstallationError | LinkCreationError
    | LinkResolutionError | PersistenceError | Unknown

  /** An error thrown by the iOS SDK: a `ULinkError`, a `ULinkHTTPError`, or any
      other error with its localized description. */
  datatype SdkError =
    | ULinkError(kind: ULinkErrorKind)
    | ULinkHTTPError(statusCode: int, responseBody: Option<string>, responseJSON: Option<Fields>)
    | OtherError(description: string)

  datatype ErrorDetails =
    | NoDetails
    | DescriptionOf(kind: ULinkErrorKind)   // the error's localized description
    | HttpDetails(statusCode: int, responseBody: Option<string>, responseJSON: Option<Fields>)

  datatype FlutterError = FlutterError(code: string, message: string, details: ErrorDetails)

  function KindCode(k: ULinkErrorKind): string {
    match k
    case NotInitialized => "NOT_INITIALIZED"
    case InvalidConfiguration => "INVALID_CONFIGURATION"
    case NetworkError => "NETWORK_ERROR"
    case InvalidURL => "INVALID_URL"
    case InvalidResponse => "INVALID_RESPONSE"
    case HttpError => "HTTP_ERROR"
    case InvalidParameters => "INVALID_PARAMETERS"
    case SessionError => "SESSION_ERROR"
    case InstallationError => "INSTALLATION_ERROR"
    case LinkCreationError => "LINK_CREATION_ERROR"
    case LinkResolutionError => "LINK_RESOLUTION_ERROR"
    case PersistenceError => "PERSISTENCE_ERROR"
    case Unknown => "UNKNOWN_ERROR"
  }

  function KindMessage(k: ULinkErrorKind): string {
    match k
    case NotInitialized => "ULink SDK has not been initialized"
    case InvalidConfiguration => "Invalid configuration provided to ULink SDK"
    case NetworkError => "Network error occurred while communicating with ULink service"
    case InvalidURL => "Invalid URL provided"
    case InvalidResponse => "Invalid response received from ULink service"
    case HttpError => "HTTP error occurred"
    case InvalidParameters => "Invalid parameters provided"
    case SessionError => "Session management error occurred"
    case InstallationError => "Installation tracking error occurred"
    case LinkCreationError => "Error occurred while creating link"
    case LinkResolutionError => "Error occurred while resolving link"
    case PersistenceError => "Data persistence error occurred"
    case Unknown => "An unknown error occurred"
  }

  /** The kind a Flutter error code stands for: the inverse of the code table. */
  function KindOfCode(code: string): Option<ULinkErrorKind> {
    match code
    case "NOT_INITIALIZED" => Some(NotInitialized)
    case "INVALID_CONFIGURATION" => Some(InvalidConfiguration)
    case "NETWORK_ERROR" => Some(NetworkError)
    case "INVALID_URL" => Some(InvalidURL)
    case "INVALID_RESPONSE" => Some(InvalidResponse)
    case "HTTP_ERROR" => Some(HttpError)
    case "INVALID_PARAMETERS" => Some(InvalidParameters)
    case "SESSION_ERROR" => Some(SessionError)
    case "INSTALLATION_ERROR" => Some(InstallationError)
    case "LINK_CREATION_ERROR" => Some(LinkCreationError)
    case "LINK_RESOLUTION_ERROR" => Some(LinkResolutionError)
    case "PERSISTENCE_ERROR" => Some(PersistenceError)
    case "UNKNOWN_ERROR" => Some(Unknown)
    case _ => None
  }

  /** `mapULinkErrorToFlutter`. */
  function MapULinkErrorToFlutter(e: SdkError): (r: FlutterError)
    ensures e.ULinkError? ==> r == FlutterError(KindCode(e.kind), KindMessage(e.kind), DescriptionOf(e.kind))
    ensures e.ULinkHTTPError? ==> (r.code == "HTTP_ERROR"
      && r.message == "HTTP error occurred (status: " + IntToString(e.statusCode) + ")"
      && r.details == HttpDetails(e.statusCode, e.responseBody, e.responseJSON))
    ensures e.OtherError? ==> r == FlutterError("UNKNOWN_ERROR", e.description, NoDetails)
  {
    match e
    case ULinkError(k) => FlutterError(KindCode(k), KindMessage(k), DescriptionOf(k))
    case ULinkHTTPError(status, body, json) =>
      FlutterError("HTTP_ERROR", "HTTP error occurred (status: " + IntToString(status) + ")",
                   HttpDetails(status, body, json))
    case OtherError(description) => FlutterError("UNKNOWN_ERROR", description, NoDetails)
  }

  /** Each SDK error kind gets a code of its own: the code gives the kind back, so
      the twelve specific kinds have twelve distinct codes, none of them
      UNKNOWN_ERROR. */
  lemma ErrorCodesDistinct(k: ULinkErrorKind)
    ensures KindOfCode(MapULinkErrorToFlutter(ULinkError(k)).code) == Some(k)
    ensures k != Unknown ==> MapULinkErrorToFlutter(ULinkError(k)).code != "UNKNOWN_ERROR"
  {
  }

  /** An error of another kind is reported as UNKNOWN_ERROR with its own description. */
  lemma OtherErrorsAreUnknown(description: string)
    ensures KindOfCode(MapULinkErrorToFlutter(OtherError(description)).code) == Some(Unknown)
  {
  }

  // ---------------------------------------------------------------------------
  // getSessionState.

  datatype SessionState = Idle | Initializing | Active | Ending | Failed

  function SessionStateOfName(name: string): Option<SessionState> {
    match name
    case "idle" => Some(Idle)
    case "initializing" => Some(Initializing)
    case "active" => Some(Active)
    case "ending" => Some(Ending)
    case "failed" => Some(Failed)
    case _ => None
  }

  /** `getSessionState`'s names: the five states get five distinct names, so the
      name gives the state back. */
  function SessionStateName(s: SessionState): (r: string)
    ensures SessionStateOfName(r) == Some(s)
  {
    match s
    case Idle => "idle"
    case Initializing => "initializing"
    case Active => "active"
    case Ending => "ending"
    case Failed => "failed"
  }

  // ---------------------------------------------------------------------------
  // parseULinkParameters.

  datatype SocialMediaTags = SocialMediaTags(ogTitle: Option<string>, ogDescription: Option<string>, ogImage: Option<string>)

  /** The iOS SDK's two kinds of link parameters. */
  datatype Parameters =
    | DynamicParameters(
        domain: string, slug: Option<string>, iosFallbackUrl: Option<string>,
        androidFallbackUrl: Option<string>, fallbackUrl: Option<string>,
        parameters: Option<seq<(string, string)>>, socialMediaTags: Option<SocialMediaTags>,
        metadata: Option<Fields>)
    | UnifiedParameters(
        domain: string, slug: Option<string>, iosUrl: string, androidUrl: string, fallbackUrlRequired: string,
        parameters: Option<seq<(string, string)>>, socialMediaTags: Option<SocialMediaTags>,
        metadata: Option<Fields>)

  /** The text of a string value. */
  function TextOf(v: Value): (r: string)
    ensures v.VString? ==> VString(r) == v
  {
    if v.VString? then v.s else ""
  }

  /** `as? [String: String]`: a map whose every value is a string. */
  function AsStringMap(v: Option<Value>): (r: Option<seq<(string, string)>>)
    ensures r.Some? <==> AsMap(v).Some? && forall k :: 0 <= k < |AsMap(v).value| ==> AsMap(v).value[k].1.VString?
    ensures r.Some? ==> (|r.value| == |AsMap(v).value|
      && forall k :: 0 <= k < |r.value| ==> AsMap(v).value[k] == (r.value[k].0, VString(r.value[k].1)))
  {
    match AsMap(v)
    case None => None
    case Some(es) =>
      if forall k :: 0 <= k < |es| ==> es[k].1.VString? then
        Some(seq(|es|, k requires 0 <= k < |es| => (es[k].0, TextOf(es[k].1))))
      else None
  }

  /** `as? [String]`: a list whose every item is a string. */
  function AsStringList(v: Option<Value>): (r: Option<seq<string>>)
    ensures r.Some? <==> AsList(v).Some? && forall k :: 0 <= k < |AsList(v).value| ==> AsList(v).value[k].VString?
    ensures r.Some? ==> (|r.value| == |AsList(v).value|
      && forall k :: 0 <= k < |r.value| ==> AsList(v).value[k] == VString(r.value[k]))
  {
    match AsList(v)
    case None => None
    case Some(items) =>
      if forall k :: 0 <= k < |items| ==> items[k].VString? then
        Some(seq(|items|, k requires 0 <= k < |items| => TextOf(items[k])))
      else None
  }

  /** `socialMediaTags`: a map gives its three tags, each kept only when it is a string. */
  function TagsOf(v: Option<Value>): (r: Option<SocialMediaTags>)
    ensures r.Some? <==> AsMap(v).Some?
    ensures r.Some? ==>
      var t := AsMap(v).value;
      (r.value.ogTitle.Some? <==> AsString(Lookup(t, "ogTitle")).Some?)
      && (r.value.ogTitle.Some? ==> Lookup(t, "ogTitle") == Some(VString(r.value.ogTitle.value)))
      && (r.value.ogDescription.Some? <==> AsString(Lookup(t, "ogDescription")).Some?)
      && (r.value.ogDescription.Some? ==> Lookup(t, "ogDescription") == Some(VString(r.value.ogDescription.value)))
      && (r.value.ogImage.Some? <==> AsString(Lookup(t, "ogImage")).Some?)
      && (r.value.ogImage.Some? ==> Lookup(t, "ogImage") == Some(VString(r.value.ogImage.value)))
  {
    match AsMap(v)
    case None => None
    case Some(t) =>
      Some(SocialMediaTags(AsString(Lookup(t, "ogTitle")), AsString(Lookup(t, "ogDescription")),
                           AsString(Lookup(t, "ogImage"))))
  }

  /** `parseULinkParameters`: "Type is required" first, then "Domain is required";
      exactly the type "dynamic" gives dynamic parameters, any other type unified
      ones whose iOS, Android and fallback URLs default to "". */
  function ParseParameters(m: Fields): (r: Result<Parameters, string>)
    ensures AsString(Lookup(m, "type")).None? ==> r == Err("Type is required")
    ensures AsString(Lookup(m, "type")).Some? && AsString(Lookup(m, "domain")).None? ==> r == Err("Domain is required")
    ensures r.Ok? <==> AsString(Lookup(m, "type")).Some? && AsString(Lookup(m, "domain")).Some?
    ensures r.Ok? ==> (r.value.DynamicParameters? <==> Lookup(m, "type") == Some(VString("dynamic")))
    ensures r.Ok? ==> Lookup(m, "domain") == Some(VString(r.value.domain)) && r.value.slug == AsString(Lookup(m, "slug"))
    ensures r.Ok? && r.value.UnifiedParameters? ==>
      r.value.iosUrl == GetOr(AsString(Lookup(m, "iosUrl")), "")
      && r.value.androidUrl == GetOr(AsString(Lookup(m, "androidUrl")), "")
      && r.value.fallbackUrlRequired == GetOr(AsString(Lookup(m, "fallbackUrl")), "")
    ensures r.Ok? && r.value.DynamicParameters? ==>
      r.value.iosFallbackUrl == AsString(Lookup(m, "iosFallbackUrl"))
      && r.value.androidFallbackUrl == AsString(Lookup(m, "androidFallbackUrl"))
      && r.value.fallbackUrl == AsString(Lookup(m, "fallbackUrl"))
    ensures r.Ok? ==> r.value.parameters == AsStringMap(Lookup(m, "parameters"))
    ensures r.Ok? ==> r.value.metadata == AsMap(Lookup(m, "metadata"))
    ensures r.Ok? ==> r.value.socialMediaTags == TagsOf(Lookup(m, "socialMediaTags"))
  {
    match AsString(Lookup(m, "type"))
    case None => Err("Type is required")
    case Some(linkType) =>
      match AsString(Lookup(m, "domain"))
      case None => Err("Domain is required")
      case Some(domain) =>
        var slug := AsString(Lookup(m, "slug"));
        var fallbackUrl := AsString(Lookup(m, "fallbackUrl"));
        var parameters := AsStringMap(Lookup(m, "parameters"));
        var metadata := AsMap(Lookup(m, "metadata"));
        var tags := TagsOf(Lookup(m, "socialMediaTags"));
        if linkType == "dynamic" then
          Ok(DynamicParameters(domain, slug, AsString(Lookup(m, "iosFallbackUrl")),
                               AsString(Lookup(m, "androidFallbackUrl")), fallbackUrl, parameters, tags, metadata))
        else
          Ok(UnifiedParameters(domain, slug, GetOr(AsString(Lookup(m, "iosUrl")), ""),
                               GetOr(AsString(Lookup(m, "androidUrl")), ""), GetOr(fallbackUrl, ""),
                               parameters, tags, metadata))
  }

  /** The type test is exact: "Dynamic" and "DYNAMIC" make unified parameters. */
  lemma DynamicIsCaseSensitive(m: Fields)
    requires Lookup(m, "type") == Some(VString("Dynamic")) && AsString(Lookup(m, "domain")).Some?
    ensures ParseParameters(m).value.UnifiedParameters?
  {
  }

  // ---------------------------------------------------------------------------
  // parseULinkConfig.

  /** The SDK configuration; the lifetime is kept in the milliseconds given. */
  datatype Config = Config(
    apiKey: string,
    baseUrl: string,
    debug: bool,
    enableDeepLinkIntegration: bool,
    persistLastLinkData: bool,
    lastLinkTimeToLiveMillis: Option<int>,
    clearLastLinkOnRead: bool,
    redactAllParametersInLastLink: bool,
    redactedParameterKeysInLastLink: seq<string>)

  /** What `parseULinkConfig` gives: the SDK configuration and the plugin's own
      automatic app-delegate flag, which it stores on the plugin. */
  datatype ParsedConfig = ParsedConfig(config: Config, enableAutomaticAppDelegateIntegration: bool)

  /** `parseULinkConfig`: fails with "API key is required" exactly when `apiKey` is
      not a string; the other keys fall back to their defaults. */
  function ParseConfig(m: Fields): (r: Result<ParsedConfig, string>)
    ensures r.Err? <==> AsString(Lookup(m, "apiKey")).None?
    ensures r.Err? ==> r.error == "API key is required"
    ensures r.Ok? ==> Lookup(m, "apiKey") == Some(VString(r.value.config.apiKey))
    ensures r.Ok? ==> r.value.config.baseUrl == StringOr(Lookup(m, "baseUrl"), "https://api.ulink.ly")
    ensures r.Ok? ==> r.value.config.debug == BoolOr(Lookup(m, "debug"), false)
    ensures r.Ok? ==> r.value.config.enableDeepLinkIntegration == BoolOr(Lookup(m, "enableDeepLinkIntegration"), true)
    ensures r.Ok? ==> r.value.config.persistLastLinkData == BoolOr(Lookup(m, "persistLastLinkData"), false)
    ensures r.Ok? ==> r.value.config.lastLinkTimeToLiveMillis == AsInt(Lookup(m, "lastLinkTimeToLive"))
    ensures r.Ok? ==> r.value.config.clearLastLinkOnRead == BoolOr(Lookup(m, "clearLastLinkOnRead"), true)
    ensures r.Ok? ==>
      r.value.config.redactAllParametersInLastLink == BoolOr(Lookup(m, "redactAllParametersInLastLink"), false)
    ensures r.Ok? ==>
      r.value.config.redactedParameterKeysInLastLink == GetOr(AsStringList(Lookup(m, "redactedParameterKeysInLastLink")), [])
    ensures r.Ok? ==>
      r.value.enableAutomaticAppDelegateIntegration == BoolOr(Lookup(m, "enableAutomaticAppDelegateIntegration"), true)
  {
    match AsString(Lookup(m, "apiKey"))
    case None => Err("API key is required")
    case Some(apiKey) =>
      Ok(ParsedConfig(
        Config(
          apiKey,
          StringOr(Lookup(m, "baseUrl"), "https://api.ulink.ly"),
          BoolOr(Lookup(m, "debug"), false),
          BoolOr(Lookup(m, "enableDeepLinkIntegration"), true),
          BoolOr(Lookup(m, "persistLastLinkData"), false),
          AsInt(Lookup(m, "lastLinkTimeToLive")),
          BoolOr(Lookup(m, "clearLastLinkOnRead"), true),
          BoolOr(Lookup(m, "redactAllParametersInLastLink"), false),
          GetOr(AsStringList(Lookup(m, "redactedParameterKeysInLastLink")), [])),
        BoolOr(Lookup(m, "enableAutomaticAppDelegateIntegration"), true)))
  }

  /** Unlike Android's, the iOS parser drops a key list with any non-string item
      altogether. */
  lemma MixedKeyListDropped(m: Fields, items: seq<Value>, k: nat)
    requires AsString(Lookup(m, "apiKey")).Some?
    requires Lookup(m, "redactedParameterKeysInLastLink") == Some(VList(items))
    requires k < |items| && !items[k].VString?
    ensures ParseConfig(m).value.config.redactedParameterKeysInLastLink == []
  {
    assert AsList(Lookup(m, "redactedParameterKeysInLastLink")).value[k] == items[k];
    assert AsStringList(Lookup(m, "redactedParameterKeysInLastLink")).None?;
  }
}
