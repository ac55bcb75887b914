/** The two argument parsers of the Android plugin (FlutterUlinkSdkPlugin.kt):
    `parseULinkConfig` turns the channel's config map into the native SDK's
    configuration, `parseULinkParameters` turns the channel's parameter map into
    the native SDK's link parameters. */
module AndroidParsing {
  import opened Common
  import opened Json
  import B = BridgeULink

  /** Why a parser gave up: an exception with its message, or a failed hard cast
      (`as String`) of the named key, whose platform message is not modelled. */
  datatype Failure = Raised(message: string) | CastFailed(key: string)

  /** The native SDK's configuration as the plugin fills it. */
  datatype NativeConfig = NativeConfig(
    apiKey: string,
    baseUrl: string,
    debug: bool,
    enableDeepLinkIntegration: bool,
    persistLastLinkData: bool,
    lastLinkTimeToLiveSeconds: int,
    clearLastLinkOnRead: bool,
    redactAllParametersInLastLink: bool,
    redactedParameterKeysInLastLink: seq<string>)

  const DefaultBaseUrl := "https://api.ulink.ly"

  /** 24 hours, in seconds. */
  const DefaultTimeToLiveSeconds := 24 * 60 * 60

  // ---------------------------------------------------------------------------
  // Kotlin's `toString()` on a decoded channel value.

  /** `value.toString()`: strings as they are, booleans and numbers as literals,
      lists as `[a, b]` and maps as `{k=v, k2=v2}`. */
  function Display(v: Value): (r: string)
    decreases v
  {
    match v
    case VBool(b) => if b then "true" else "false"
    case VInt(i) => IntToString(i)
    case VString(s) => s
    case VList(items) =>
      "[" + Join(seq(|items|, i requires 0 <= i < |items| => Display(items[i])), ", ") + "]"
    case VMap(es) =>
      "{" + Join(seq(|es|, i requires 0 <= i < |es| => DisplayEntry(es[i], v)), ", ") + "}"
  }

  /** One `key=value` entry of a map; `parent` is only there for termination. */
  function DisplayEntry(e: (string, Value), ghost parent: Value): string
    requires e.1 < parent
    decreases parent, 0
  {
    e.0 + "=" + Display(e.1)
  }

  // ---------------------------------------------------------------------------
  // parseULinkConfig.

  /** `(list as? List<*>)?.filterIsInstance<String>()`: the strings of a list, in order. */
  function StringsOf(items: seq<Value>): (r: seq<string>)
    ensures |r| <= |items|
    ensures forall k :: 0 <= k < |r| ==> VString(r[k]) in items
    ensures |items| == 1 ==> r == (if items[0].VString? then [items[0].s] else [])
  {
    if items == [] then []
    else
      var rest := StringsOf(items[1..]);
      assert forall k :: 0 <= k < |rest| ==> VString(rest[k]) in items[1..];
      if items[0].VString? then [items[0].s] + rest else rest
  }

  /** Kotlin's `Long` division by 1000, which rounds toward zero. */
  function MillisToSeconds(ms: int): (s: int)
    ensures ms >= 0 ==> s * 1000 <= ms < s * 1000 + 1000
    ensures ms < 0 ==> s * 1000 - 1000 < ms <= s * 1000
  {
    if ms >= 0 then ms / 1000 else -((-ms) / 1000)
  }

  /** The lifetime of the last link in seconds: whole seconds of the milliseconds
      given (0 when the value is not a number), 24 hours when the key is absent. */
  function TimeToLiveSeconds(m: Fields): (r: int)
    ensures !HasKey(m, "lastLinkTimeToLive") ==> r == DefaultTimeToLiveSeconds
    ensures HasKey(m, "lastLinkTimeToLive") && AsInt(Lookup(m, "lastLinkTimeToLive")).None? ==> r == 0
    ensures AsInt(Lookup(m, "lastLinkTimeToLive")).Some? ==>
      r == MillisToSeconds(AsInt(Lookup(m, "lastLinkTimeToLive")).value)
  {
    if HasKey(m, "lastLinkTimeToLive") then MillisToSeconds(GetOr(AsInt(Lookup(m, "lastLinkTimeToLive")), 0))
    else DefaultTimeToLiveSeconds
  }

  /** `parseULinkConfig`: fails exactly when `apiKey` is not a string; every other
      key falls back to its default when absent or of another type. */
  function ParseConfig(m: Fields): (r: Result<NativeConfig, Failure>)
    ensures r.Err? <==> AsString(Lookup(m, "apiKey")).None?
    ensures r.Err? ==> r.error == CastFailed("apiKey")
    ensures r.Ok? ==> Lookup(m, "apiKey") == Some(VString(r.value.apiKey))
    ensures r.Ok? ==> r.value.baseUrl == StringOr(Lookup(m, "baseUrl"), DefaultBaseUrl)
    ensures r.Ok? ==> r.value.debug == BoolOr(Lookup(m, "debug"), false)
    ensures r.Ok? ==> r.value.enableDeepLinkIntegration == BoolOr(Lookup(m, "enableDeepLinkIntegration"), true)
    ensures r.Ok? ==> r.value.persistLastLinkData == BoolOr(Lookup(m, "persistLastLinkData"), false)
    ensures r.Ok? ==> r.value.lastLinkTimeToLiveSeconds == TimeToLiveSeconds(m)
    ensures r.Ok? ==> r.value.clearLastLinkOnRead == BoolOr(Lookup(m, "clearLastLinkOnRead"), true)
    ensures r.Ok? ==> r.value.redactAllParametersInLastLink == BoolOr(Lookup(m, "redactAllParametersInLastLink"), false)
    ensures r.Ok? ==>
      r.value.redactedParameterKeysInLastLink == StringsOf(GetOr(AsList(Lookup(m, "redactedParameterKeysInLastLink")), []))
  {
    match AsString(Lookup(m, "apiKey"))
    case None => Err(CastFailed("apiKey"))
    case Some(apiKey) =>
      Ok(NativeConfig(
        apiKey,
        StringOr(Lookup(m, "baseUrl"), DefaultBaseUrl),
        BoolOr(Lookup(m, "debug"), false),
        BoolOr(Lookup(m, "enableDeepLinkIntegration"), true),
        BoolOr(Lookup(m, "persistLastLinkData"), false),
        TimeToLiveSeconds(m),
        BoolOr(Lookup(m, "clearLastLinkOnRead"), true),
        BoolOr(Lookup(m, "redactAllParametersInLastLink"), false),
        StringsOf(GetOr(AsList(Lookup(m, "redactedParameterKeysInLastLink")), []))))
  }

  /** A flag given as a boolean is taken as it is. */
  lemma ConfigKeepsGivenFlags(m: Fields, b: bool)
    requires AsString(Lookup(m, "apiKey")).Some?
    requires Lookup(m, "enableDeepLinkIntegration") == Some(VBool(b))
    ensures ParseConfig(m).value.enableDeepLinkIntegration == b
  {
  }

  /** A lifetime of `ms` milliseconds becomes its whole number of seconds, rounded
      toward zero. */
  lemma TimeToLiveIsWholeSeconds(m: Fields, ms: int)
    requires Lookup(m, "lastLinkTimeToLive") == Some(VInt(ms))
    ensures ms >= 0 ==> TimeToLiveSeconds(m) * 1000 <= ms < (TimeToLiveSeconds(m) + 1) * 1000
    ensures ms < 0 ==> (TimeToLiveSeconds(m) - 1) * 1000 < ms <= TimeToLiveSeconds(m) * 1000
  {
  }

  /** A lifetime that is present but not a number counts as 0 seconds, and an
      absent one as 24 hours. */
  lemma TimeToLiveFallbacks(m: Fields)
    ensures HasKey(m, "lastLinkTimeToLive") && AsInt(Lookup(m, "lastLinkTimeToLive")).None? ==> TimeToLiveSeconds(m) == 0
    ensures !HasKey(m, "lastLinkTimeToLive") ==> TimeToLiveSeconds(m) == 86400
  {
  }

  /** Filtering distributes over concatenation: with the one-element case in
      `StringsOf`'s contract, every string of a mixed list is kept, in order, and
      every other item dropped. */
  lemma {:induction false} StringsOfConcat(a: seq<Value>, b: seq<Value>)
    ensures StringsOf(a + b) == StringsOf(a) + StringsOf(b)
  {
    if a != [] {
      assert (a + b)[1..] == a[1..] + b;
      StringsOfConcat(a[1..], b);
    } else {
      assert a + b == b;
    }
  }

  /** A list made only of strings is kept whole, in order. */
  lemma {:induction false} StringsOfAllStrings(items: seq<Value>)
    requires forall k :: 0 <= k < |items| ==> items[k].VString?
    ensures |StringsOf(items)| == |items|
    ensures forall k :: 0 <= k < |items| ==> StringsOf(items)[k] == items[k].s
  {
    if items != [] {
      StringsOfAllStrings(items[1..]);
    }
  }

  // ---------------------------------------------------------------------------
  // parseULinkParameters.

  /** A social tag: a string as it is, anything else through `toString()`. */
  function TagText(v: Option<Value>): (r: Option<string>)
    ensures r.None? <==> v.None?
    ensures v.Some? && v.value.VString? ==> r == Some(v.value.s)
  {
    match v
    case None => None
    case Some(x) => Some(Display(x))
  }

  /** The member `put` stores for one value: strings and booleans as they are,
      numbers and everything else as the string `toString()` gives. */
  function JsonValueOf(v: Value): (j: Json)
    ensures j.JString? || j.JBool?
    ensures v.VBool? <==> j.JBool?
  {
    match v
    case VString(s) => JString(s)
    case VInt(i) => JString(IntToString(i))
    case VBool(b) => JBool(b)
    case _ => JString(Display(v))
  }

  /** `buildJsonObject { map.forEach { (key, value) -> put(key, …) } }`. */
  function JsonMembersOf(es: Fields): (ms: seq<(string, Json)>)
    ensures |ms| == |es|
    ensures forall k :: 0 <= k < |es| ==> ms[k] == (es[k].0, JsonValueOf(es[k].1))
  {
    seq(|es|, k requires 0 <= k < |es| => (es[k].0, JsonValueOf(es[k].1)))
  }

  /** Every stored member reads back, through its primitive content, as the text
      of the value that was put: the conversion keeps the key order and the
      values' text, and only booleans keep their type. */
  lemma JsonMembersKeepText(es: Fields)
    ensures forall k :: 0 <= k < |es| ==>
      IsPrimitive(JsonMembersOf(es)[k].1) && Content(JsonMembersOf(es)[k].1) == Display(es[k].1)
  {
  }

  /** A map of strings passes through the conversion and back through the bridge's
      `jsonElementToMap` unchanged. */
  lemma {:induction false} StringParametersRoundTrip(es: Fields)
    requires forall k :: 0 <= k < |es| ==> es[k].1.VString?
    ensures B.JsonElementToMap(Some(JObject(JsonMembersOf(es)))) ==
            Some(seq(|es|, k requires 0 <= k < |es| => (es[k].0, es[k].1.s)))
  {
    var ms := JsonMembersOf(es);
    var texts := B.MemberTexts(ms);
    forall k | 0 <= k < |es|
      ensures texts[k] == (es[k].0, es[k].1.s)
    {
      B.MemberTextsKeys(ms, k);
    }
    assert texts == seq(|es|, k requires 0 <= k < |es| => (es[k].0, es[k].1.s));
  }

  function JsonObjectOf(v: Option<Value>): (r: Option<Json>)
    ensures r.Some? <==> AsMap(v).Some?
    ensures r.Some? ==> r.value == JObject(JsonMembersOf(AsMap(v).value))
  {
    match AsMap(v)
    case None => None
    case Some(es) => Some(JObject(JsonMembersOf(es)))
  }

  /** `parseULinkParameters`: fails exactly when `domain` is not a string, with
      "Domain is required"; `type` defaults to "unified"; the optional strings are
      kept when they are strings; `parameters` and `metadata` become JSON objects
      and `socialMediaTags` the native tags, each only when given as a map. */
  function ParseParameters(m: Fields): (r: Result<B.NativeParameters, Failure>)
    ensures r.Err? <==> AsString(Lookup(m, "domain")).None?
    ensures r.Err? ==> r.error == Raised("Domain is required")
    ensures r.Ok? ==> Lookup(m, "domain") == Some(VString(r.value.domain))
    ensures r.Ok? && AsString(Lookup(m, "type")).None? ==> r.value.linkType == "unified"
    ensures r.Ok? && AsString(Lookup(m, "type")).Some? ==> Lookup(m, "type") == Some(VString(r.value.linkType))
    ensures r.Ok? ==> (r.value.slug == AsString(Lookup(m, "slug"))
                       && r.value.iosUrl == AsString(Lookup(m, "iosUrl"))
                       && r.value.androidUrl == AsString(Lookup(m, "androidUrl"))
                       && r.value.iosFallbackUrl == AsString(Lookup(m, "iosFallbackUrl"))
                       && r.value.androidFallbackUrl == AsString(Lookup(m, "androidFallbackUrl"))
                       && r.value.fallbackUrl == AsString(Lookup(m, "fallbackUrl")))
    ensures r.Ok? ==> r.value.parameters == JsonObjectOf(Lookup(m, "parameters"))
    ensures r.Ok? ==> r.value.metadata == JsonObjectOf(Lookup(m, "metadata"))
    ensures r.Ok? ==> (r.value.socialMediaTags.Some? <==> AsMap(Lookup(m, "socialMediaTags")).Some?)
    ensures r.Ok? && r.value.socialMediaTags.Some? ==>
      var t := AsMap(Lookup(m, "socialMediaTags")).value;
      r.value.socialMediaTags.value == B.NativeSocialMediaTags(
        TagText(Lookup(t, "ogTitle")), TagText(Lookup(t, "ogDescription")), TagText(Lookup(t, "ogImage")))
  {
    var tags := match AsMap(Lookup(m, "socialMediaTags"))
      case None => None
      case Some(t) => Some(B.NativeSocialMediaTags(
        TagText(Lookup(t, "ogTitle")), TagText(Lookup(t, "ogDescription")), TagText(Lookup(t, "ogImage"))));
    match AsString(Lookup(m, "domain"))
    case None => Err(Raised("Domain is required"))
    case Some(domain) =>
      Ok(B.NativeParameters(
        GetOr(AsString(Lookup(m, "type")), "unified"),
        AsString(Lookup(m, "slug")),
        AsString(Lookup(m, "iosUrl")),
        AsString(Lookup(m, "androidUrl")),
        AsString(Lookup(m, "iosFallbackUrl")),
        AsString(Lookup(m, "androidFallbackUrl")),
        AsString(Lookup(m, "fallbackUrl")),
        JsonObjectOf(Lookup(m, "parameters")),
        tags,
        JsonObjectOf(Lookup(m, "metadata")),
        domain))
  }

  /** Given social tags that are strings arrive unchanged in the native tags. */
  lemma ParametersKeepStringTags(m: Fields, t: Fields, title: string)
    requires AsString(Lookup(m, "domain")).Some?
    requires Lookup(m, "socialMediaTags") == Some(VMap(t))
    requires Lookup(t, "ogTitle") == Some(VString(title))
    ensures ParseParameters(m).value.socialMediaTags.value.ogTitle == Some(title)
  {
  }
}
