/** ULink.kt: the Android bridge class that wraps the native SDK. Its companion
    object keeps one instance; its conversions translate between the bridge's
    models and the native SDK's (session states, link types, social tags,
    string maps and JSON objects). Calls into the native SDK are outcomes passed
    in as parameters. */
module BridgeULink {
  import opened Common
  import opened Json
  import M = BridgeModels

  // ---------------------------------------------------------------------------
  // The native SDK's side of the conversions.

  datatype NativeSessionState = Idle | Initializing | Active | Ending | Failed

  datatype NativeLinkType = NativeDynamic | NativeUnified

  datatype NativeSocialMediaTags = NativeSocialMediaTags(
    ogTitle: Option<string>,
    ogDescription: Option<string>,
    ogImage: Option<string>)

  datatype NativeParameters = NativeParameters(
    linkType: string,
    slug: Option<string>,
    iosUrl: Option<string>,
    androidUrl: Option<string>,
    iosFallbackUrl: Option<string>,
    androidFallbackUrl: Option<string>,
    fallbackUrl: Option<string>,
    parameters: Option<Json>,
    socialMediaTags: Option<NativeSocialMediaTags>,
    metadata: Option<Json>,
    domain: string)

  datatype NativeResolvedData = NativeResolvedData(
    slug: Option<string>,
    iosFallbackUrl: Option<string>,
    androidFallbackUrl: Option<string>,
    fallbackUrl: Option<string>,
    parameters: Option<Json>,
    socialMediaTags: Option<NativeSocialMediaTags>,
    metadata: Option<Json>,
    linkType: Option<string>,
    rawData: Option<seq<(string, M.Raw)>>)

  datatype NativeResponse = NativeResponse(
    success: bool,
    url: Option<string>,
    error: Option<string>,
    data: Option<seq<(string, Json)>>)

  // ---------------------------------------------------------------------------
  // Session state.

  /** The native state a bridge state stands for (the inverse of the conversion). */
  function NativeOf(s: M.SessionState): NativeSessionState {
    match s
    case Inactive => Idle
    case Starting => Initializing
    case Active => Active
    case Ending => Ending
    case Error => Failed
  }

  /** `convertNativeSessionState`: renames each of the five native states. */
  function ConvertNativeSessionState(n: NativeSessionState): (s: M.SessionState)
    ensures NativeOf(s) == n
  {
    match n
    case Idle => M.Inactive
    case Initializing => M.Starting
    case Active => M.SessionState.Active
    case Ending => M.SessionState.Ending
    case Failed => M.Error
  }

  /** The conversion is onto, so with `NativeOf` it is a bijection. */
  lemma SessionStateBijection(s: M.SessionState)
    ensures ConvertNativeSessionState(NativeOf(s)) == s
  {
  }

  // ---------------------------------------------------------------------------
  // Link types.

  /** `convertLinkType`: normalises a link type name to "dynamic" or "unified". */
  function ConvertLinkType(t: string): (r: string)
    ensures r == "dynamic" || r == "unified"
    ensures r == "dynamic" <==> Lower(t) == "dynamic"
  {
    match Lower(t)
    case "dynamic" => "dynamic"
    case "unified" => "unified"
    case _ => "unified"
  }

  lemma ConvertLinkTypeIdempotent(t: string)
    ensures ConvertLinkType(ConvertLinkType(t)) == ConvertLinkType(t)
  {
    assert Lower("dynamic") == "dynamic";
    assert Lower("unified") == "unified";
  }

  /** `convertNativeLinkType`: only the exact name "dynamic" is the dynamic type. */
  function ConvertNativeLinkType(t: Option<string>): (r: M.LinkType)
    ensures r == M.Dynamic <==> t == Some("dynamic")
  {
    match t
    case Some("dynamic") => M.Dynamic
    case Some("unified") => M.Unified
    case _ => M.Unified
  }

  // ---------------------------------------------------------------------------
  // Social media tags.

  /** `convertNativeSocialMediaTags`: copies the three fields. */
  function ConvertNativeSocialMediaTags(t: Option<NativeSocialMediaTags>): (r: Option<M.SocialMediaTags>)
    ensures r.None? <==> t.None?
    ensures r.Some? ==> (r.value.ogTitle == t.value.ogTitle && r.value.ogDescription == t.value.ogDescription
                      && r.value.ogImage == t.value.ogImage)
  {
    match t
    case None => None
    case Some(n) => Some(M.SocialMediaTags(n.ogTitle, n.ogDescription, n.ogImage))
  }

  /** `convertSocialMediaTags`: copies the three fields; undone by the native-side conversion. */
  function ConvertSocialMediaTags(t: Option<M.SocialMediaTags>): (r: Option<NativeSocialMediaTags>)
    ensures r.None? <==> t.None?
    ensures r.Some? ==> (r.value.ogTitle == t.value.ogTitle && r.value.ogDescription == t.value.ogDescription
                      && r.value.ogImage == t.value.ogImage)
    ensures ConvertNativeSocialMediaTags(r) == t
  {
    match t
    case None => None
    case Some(b) => Some(NativeSocialMediaTags(b.ogTitle, b.ogDescription, b.ogImage))
  }

  lemma NativeSocialMediaTagsRoundTrip(t: Option<NativeSocialMediaTags>)
    ensures ConvertSocialMediaTags(ConvertNativeSocialMediaTags(t)) == t
  {
  }

  // ---------------------------------------------------------------------------
  // String maps and JSON objects.

  /** The members `buildJsonObject { map.forEach { put(key, value) } }` puts. */
  function StringMembers(m: M.StringMap): (ms: seq<(string, Json)>)
    ensures |ms| == |m|
  {
    if m == [] then [] else [(m[0].0, JString(m[0].1))] + StringMembers(m[1..])
  }

  /** `mapToJsonElement`: a JSON object of string primitives, which
      `jsonElementToMap` turns back into the same map. */
  function MapToJsonElement(m: M.StringMap): (j: Json)
    ensures j.JObject? && |j.members| == |m|
    ensures JsonElementToMap(Some(j)) == Some(m)
  {
    StringMembersRoundTrip(m);
    JObject(StringMembers(m))
  }

  /** How `jsonElementToMap` renders one member value. */
  function MemberText(v: Json): string {
    if IsPrimitive(v) then Content(v) else Show(v)
  }

  /** `mapValues` over an object's members. */
  function MemberTexts(ms: seq<(string, Json)>): (m: M.StringMap)
    ensures |m| == |ms|
  {
    if ms == [] then [] else [(ms[0].0, MemberText(ms[0].1))] + MemberTexts(ms[1..])
  }

  /** `jsonElementToMap`: an object becomes a string map with the same keys in the same
      order; null and anything that is not an object give null. */
  function JsonElementToMap(e: Option<Json>): (r: Option<M.StringMap>)
    ensures r.Some? <==> e.Some? && e.value.JObject?
  {
    match e
    case Some(JObject(ms)) => Some(MemberTexts(ms))
    case _ => None
  }

  lemma {:induction false} MemberTextsKeys(ms: seq<(string, Json)>, i: nat)
    requires i < |ms|
    ensures MemberTexts(ms)[i] == (ms[i].0, MemberText(ms[i].1))
  {
    if i > 0 {
      MemberTextsKeys(ms[1..], i - 1);
    }
  }

  lemma {:induction false} StringMembersRoundTrip(m: M.StringMap)
    ensures MemberTexts(StringMembers(m)) == m
  {
    if m != [] {
      StringMembersRoundTrip(m[1..]);
    }
  }

  /** `jsonObjectToMap` on one value: primitives by content, objects recursively,
      anything else (arrays) by its JSON text. */
  function RawValue(v: Json): M.Raw
    decreases v
  {
    match v
    case JObject(ms) => M.RawMap(seq(|ms|, i requires 0 <= i < |ms| => RawMember(ms[i], v)))
    case JArray(_) => M.RawText(Show(v))
    case _ => M.RawText(Content(v))
  }

  function RawMember(m: (string, Json), ghost parent: Json): (string, M.Raw)
    requires m.1 < parent
    decreases parent, 0
  {
    (m.0, RawValue(m.1))
  }

  /** `jsonObjectToMap`: the same keys in the same order. */
  function JsonObjectToMap(ms: seq<(string, Json)>): (r: seq<(string, M.Raw)>)
    ensures |r| == |ms|
    ensures forall i :: 0 <= i < |ms| ==> r[i].0 == ms[i].0
  {
    seq(|ms|, i requires 0 <= i < |ms| => (ms[i].0, RawValue(ms[i].1)))
  }

  /** What `jsonObjectToMap` makes of each member: a primitive's content (a JSON
      null gives the text "null"), a nested object converted the same way, and the
      JSON text of anything else. */
  lemma JsonObjectToMapValues(ms: seq<(string, Json)>, i: nat)
    requires i < |ms|
    ensures IsPrimitive(ms[i].1) ==> JsonObjectToMap(ms)[i].1 == M.RawText(Content(ms[i].1))
    ensures ms[i].1 == JNull ==> JsonObjectToMap(ms)[i].1 == M.RawText("null")
    ensures ms[i].1.JObject? ==> JsonObjectToMap(ms)[i].1 == M.RawMap(JsonObjectToMap(ms[i].1.members))
    ensures ms[i].1.JArray? ==> JsonObjectToMap(ms)[i].1 == M.RawText(Show(ms[i].1))
  {
    var v := ms[i].1;
    if v.JObject? {
      assert RawValue(v).entries == JsonObjectToMap(v.members);
    }
  }

  // ---------------------------------------------------------------------------
  // Resolved data.

  /** A string field read as `json[key]?.toString()?.removeSurrounding("\"")`. */
  function QuotedField(ms: seq<(string, Json)>, key: string): Option<string> {
    match Lookup(ms, key)
    case None => None
    case Some(v) => Some(UnquotedText(v))
  }

  /** The link type read from a JSON object as written: the field's text, quotes
      stripped, "dynamic" when absent; only "unified" in any case is unified. */
  function LinkTypeOf(ms: seq<(string, Json)>): M.LinkType {
    if Lower(GetOr(QuotedField(ms, "type"), "dynamic")) == "unified" then M.Unified else M.Dynamic
  }

  /** `convertJsonObjectToResolvedData` as written. */
  function ConvertJsonObjectToResolvedData(json: Option<seq<(string, Json)>>): (r: Option<M.ULinkResolvedData>)
    ensures r.None? <==> json.None?
    ensures r.Some? ==> (r.value.linkType == LinkTypeOf(json.value)
                      && r.value.slug == QuotedField(json.value, "slug")
                      && r.value.iosUrl == QuotedField(json.value, "iosUrl")
                      && r.value.androidUrl == QuotedField(json.value, "androidUrl")
                      && r.value.iosFallbackUrl == QuotedField(json.value, "iosFallbackUrl")
                      && r.value.androidFallbackUrl == QuotedField(json.value, "androidFallbackUrl")
                      && r.value.fallbackUrl == QuotedField(json.value, "fallbackUrl")
                      && r.value.parameters == JsonElementToMap(Lookup(json.value, "parameters"))
                      && r.value.metadata == JsonElementToMap(Lookup(json.value, "metadata"))
                      && r.value.socialMediaTags.None?
                      && r.value.rawData == Some(JsonObjectToMap(json.value)))
  {
    match json
    case None => None
    case Some(ms) =>
      Some(M.ULinkResolvedData(
        slug := QuotedField(ms, "slug"),
        iosUrl := QuotedField(ms, "iosUrl"),
        androidUrl := QuotedField(ms, "androidUrl"),
        iosFallbackUrl := QuotedField(ms, "iosFallbackUrl"),
        androidFallbackUrl := QuotedField(ms, "androidFallbackUrl"),
        fallbackUrl := QuotedField(ms, "fallbackUrl"),
        parameters := JsonElementToMap(Lookup(ms, "parameters")),
        socialMediaTags := None,
        metadata := JsonElementToMap(Lookup(ms, "metadata")),
        linkType := LinkTypeOf(ms),
        rawData := Some(JsonObjectToMap(ms))))
  }

  lemma {:induction false} LowerKeepsBackslash(s: string)
    requires '\\' in s
    ensures '\\' in Lower(s)
  {
    var i :| 0 <= i < |s| && s[i] == '\\';
    assert Lower(s)[i] == '\\';
  }

  /** "unified" has no character that needs escaping. */
  lemma UnifiedNeedsNoEscape(t: string)
    requires t == "unified"
    ensures '\\' !in t
    ensures forall k :: 0 <= k < |t| ==> !NeedsEscape(t[k])
  {
  }

  /** Escaping cannot make a string read "unified" ignoring case, nor stop it from doing so. */
  lemma LowerEscapeUnified(s: string)
    ensures Lower(Escape(s)) == "unified" <==> Lower(s) == "unified"
  {
    if i :| 0 <= i < |s| && NeedsEscape(s[i]) {
      EscapeShowsBackslash(s);
      LowerKeepsBackslash(Escape(s));
      if Lower(Escape(s)) == "unified" {
        UnifiedNeedsNoEscape(Lower(Escape(s)));
      }
      assert Lower(s)[i] == s[i];
      if Lower(s) == "unified" {
        UnifiedNeedsNoEscape(Lower(s));
      }
    } else {
      EscapeIdentity(s);
    }
  }

  /** A JSON string type is unified exactly when it reads "unified" ignoring case. */
  lemma LinkTypeOfString(ms: seq<(string, Json)>, s: string)
    requires Lookup(ms, "type") == Some(JString(s))
    ensures LinkTypeOf(ms) == M.Unified <==> Lower(s) == "unified"
  {
    UnquotedString(s);
    assert QuotedField(ms, "type") == Some(Escape(s));
    LowerEscapeUnified(s);
  }

  /** An absent type is dynamic. */
  lemma LinkTypeDefaultsToDynamic(ms: seq<(string, Json)>)
    requires !HasKey(ms, "type")
    ensures LinkTypeOf(ms) == M.Dynamic
  {
    assert Lower("dynamic") == "dynamic";
  }

  /** A JSON null slug comes out as the four-letter text "null", not as null. */
  lemma NullFieldReadsAsText(ms: seq<(string, Json)>)
    requires Lookup(ms, "slug") == Some(JNull)
    ensures ConvertJsonObjectToResolvedData(Some(ms)).value.slug == Some("null")
  {
    assert UnquotedText(JNull) == "null";
  }

  /** A slug holding a double quote comes out with the escaping backslash kept. */
  lemma EscapedFieldKeepsBackslash()
    ensures ConvertJsonObjectToResolvedData(Some([("slug", JString("a\"b"))])).value.slug
            == Some("a\\\"b")
  {
    assert Escape("a\"b") == "a\\\"b" by {
      assert Escape("b") == "b";
      assert Escape("\"b") == "\\\"" + Escape("b");
    }
    UnquotedString("a\"b");
  }

  /** A string field read as the primitive's content (`jsonPrimitive.contentOrNull`). */
  function ContentField(ms: seq<(string, Json)>, key: string): (r: Option<string>)
    ensures Lookup(ms, key).Some? && Lookup(ms, key).value.JString? ==>
              r == Some(Lookup(ms, key).value.text)
    ensures Lookup(ms, key) == Some(JNull) ==> r.None?
  {
    match Lookup(ms, key)
    case Some(v) => if IsPrimitive(v) && !v.JNull? then Some(Content(v)) else None
    case None => None
  }

  /** The conversion with string fields read as content: what the quote stripping is for. */
  function ConvertJsonObjectToResolvedDataFixed(json: Option<seq<(string, Json)>>): (r: Option<M.ULinkResolvedData>)
    ensures r.None? <==> json.None?
    ensures r.Some? ==> (r.value.slug == ContentField(json.value, "slug")
                      && r.value.iosUrl == ContentField(json.value, "iosUrl")
                      && r.value.androidUrl == ContentField(json.value, "androidUrl")
                      && r.value.iosFallbackUrl == ContentField(json.value, "iosFallbackUrl")
                      && r.value.androidFallbackUrl == ContentField(json.value, "androidFallbackUrl")
                      && r.value.fallbackUrl == ContentField(json.value, "fallbackUrl")
                      && r.value.parameters == JsonElementToMap(Lookup(json.value, "parameters"))
                      && r.value.metadata == JsonElementToMap(Lookup(json.value, "metadata"))
                      && r.value.socialMediaTags.None?
                      && r.value.rawData == Some(JsonObjectToMap(json.value)))
    ensures r.Some? ==> (r.value.linkType == M.Unified <==>
                          Lower(GetOr(ContentField(json.value, "type"), "dynamic")) == "unified")
  {
    match json
    case None => None
    case Some(ms) =>
      Some(M.ULinkResolvedData(
        slug := ContentField(ms, "slug"),
        iosUrl := ContentField(ms, "iosUrl"),
        androidUrl := ContentField(ms, "androidUrl"),
        iosFallbackUrl := ContentField(ms, "iosFallbackUrl"),
        androidFallbackUrl := ContentField(ms, "androidFallbackUrl"),
        fallbackUrl := ContentField(ms, "fallbackUrl"),
        parameters := JsonElementToMap(Lookup(ms, "parameters")),
        socialMediaTags := None,
        metadata := JsonElementToMap(Lookup(ms, "metadata")),
        linkType := if Lower(GetOr(ContentField(ms, "type"), "dynamic")) == "unified" then M.Unified else M.Dynamic,
        rawData := Some(JsonObjectToMap(ms))))
  }

  /** With the fix, every JSON string slug arrives unchanged and a JSON null slug as null. */
  lemma FixedSlugRoundTrip(ms: seq<(string, Json)>, s: string)
    requires Lookup(ms, "slug") == Some(JString(s))
    ensures ConvertJsonObjectToResolvedDataFixed(Some(ms)).value.slug == Some(s)
  {
  }

  /** Where both read a string with nothing to escape, the two conversions agree. */
  lemma FixedAgreesOnPlainStrings(ms: seq<(string, Json)>, key: string, s: string)
    requires Lookup(ms, key) == Some(JString(s))
    requires forall i :: 0 <= i < |s| ==> !NeedsEscape(s[i])
    ensures QuotedField(ms, key) == ContentField(ms, key) == Some(s)
  {
    UnquotedString(s);
  }

  /** `convertNativeResolvedData`: the native SDK carries no platform URLs. */
  function ConvertNativeResolvedData(n: NativeResolvedData): (r: M.ULinkResolvedData)
    ensures r.iosUrl.None? && r.androidUrl.None?
    ensures r.slug == n.slug && r.fallbackUrl == n.fallbackUrl
    ensures r.iosFallbackUrl == n.iosFallbackUrl && r.androidFallbackUrl == n.androidFallbackUrl
    ensures r.linkType == M.Dynamic <==> n.linkType == Some("dynamic")
    ensures r.parameters == JsonElementToMap(n.parameters) && r.metadata == JsonElementToMap(n.metadata)
    ensures ConvertSocialMediaTags(r.socialMediaTags) == n.socialMediaTags
    ensures r.rawData == n.rawData
  {
    M.ULinkResolvedData(
      slug := n.slug,
      iosUrl := None,
      androidUrl := None,
      iosFallbackUrl := n.iosFallbackUrl,
      androidFallbackUrl := n.androidFallbackUrl,
      fallbackUrl := n.fallbackUrl,
      parameters := JsonElementToMap(n.parameters),
      socialMediaTags := ConvertNativeSocialMediaTags(n.socialMediaTags),
      metadata := JsonElementToMap(n.metadata),
      linkType := ConvertNativeLinkType(n.linkType),
      rawData := n.rawData)
  }

  // ---------------------------------------------------------------------------
  // Link creation and resolution.

  /** The native parameters `createLink` builds from the bridge's. */
  function ToNativeParameters(p: M.ULinkParameters): (n: NativeParameters)
    ensures n.domain == p.domain && n.slug == p.slug
    ensures n.iosUrl == p.iosUrl && n.androidUrl == p.androidUrl
    ensures n.iosFallbackUrl == p.iosFallbackUrl && n.androidFallbackUrl == p.androidFallbackUrl
    ensures n.fallbackUrl == p.fallbackUrl
    ensures n.linkType == ConvertLinkType(p.linkType)
    ensures n.linkType == "dynamic" || n.linkType == "unified"
    ensures JsonElementToMap(n.parameters) == p.parameters
    ensures JsonElementToMap(n.metadata) == p.metadata
    ensures ConvertNativeSocialMediaTags(n.socialMediaTags) == p.socialMediaTags
  {
    NativeParameters(
      linkType := ConvertLinkType(p.linkType),
      slug := p.slug,
      iosUrl := p.iosUrl,
      androidUrl := p.androidUrl,
      iosFallbackUrl := p.iosFallbackUrl,
      androidFallbackUrl := p.androidFallbackUrl,
      fallbackUrl := p.fallbackUrl,
      parameters := if p.parameters.Some? then Some(MapToJsonElement(p.parameters.value)) else None,
      socialMediaTags := ConvertSocialMediaTags(p.socialMediaTags),
      metadata := if p.metadata.Some? then Some(MapToJsonElement(p.metadata.value)) else None,
      domain := p.domain)
  }

  /** The bridge response `createLink` and `resolveLink` build from a native one:
      the flag, URL and error copied, the data converted as written. */
  function ToResponse(n: NativeResponse): (r: M.ULinkResponse)
    ensures r.success == n.success && r.url == n.url && r.error == n.error
    ensures r.data == ConvertJsonObjectToResolvedData(n.data)
  {
    M.ULinkResponse(n.success, n.url, n.error, ConvertJsonObjectToResolvedData(n.data))
  }

  /** The same response with its data read through the corrected conversion. */
  function ToResponseFixed(n: NativeResponse): (r: M.ULinkResponse)
    ensures r.success == n.success && r.url == n.url && r.error == n.error
    ensures r.data == ConvertJsonObjectToResolvedDataFixed(n.data)
    ensures r.data.Some? && Lookup(n.data.value, "slug").Some? && Lookup(n.data.value, "slug").value.JString? ==>
      r.data.value.slug == Some(Lookup(n.data.value, "slug").value.text)
  {
    M.ULinkResponse(n.success, n.url, n.error, ConvertJsonObjectToResolvedDataFixed(n.data))
  }

  /** A failed response becomes an error carrying its message, or the default one;
      a successful one is returned as converted. */
  function CheckResponse(n: NativeResponse, defaultMessage: string): (r: Result<M.ULinkResponse, string>)
    ensures r.Ok? <==> n.success
    ensures r.Ok? ==> (r.value.success && r.value.url == n.url && r.value.error == n.error
                    && r.value.data == ConvertJsonObjectToResolvedData(n.data))
    ensures r.Err? ==> r.error == GetOr(n.error, defaultMessage)
  {
    var response := ToResponse(n);
    if !response.success then Err(GetOr(response.error, defaultMessage)) else Ok(response)
  }

  /** `createLink` after the native call returned `n`. */
  function CreateLinkOutcome(n: NativeResponse): (r: Result<M.ULinkResponse, string>)
    ensures !n.success ==> r == Err(GetOr(n.error, "Failed to create link"))
    ensures n.success ==> r == Ok(ToResponse(n))
  {
    CheckResponse(n, "Failed to create link")
  }

  /** `resolveLink` after the native call returned `n`. */
  function ResolveLinkOutcome(n: NativeResponse): (r: Result<M.ULinkResponse, string>)
    ensures !n.success ==> r == Err(GetOr(n.error, "Failed to resolve link"))
    ensures n.success ==> r == Ok(ToResponse(n))
  {
    CheckResponse(n, "Failed to resolve link")
  }

  // ---------------------------------------------------------------------------
  // The companion object's single instance.

  /** A bridge instance; it keeps the configuration it was created with. */
  class ULink {
    const config: M.ULinkConfig

    constructor (config: M.ULinkConfig)
      ensures this.config == config
    {
      this.config := config;
    }
  }

  /** The companion object: `INSTANCE`, set by `initialize`, cleared by `dispose`. */
  class Companion {
    var instance: ULink?

    constructor ()
      ensures instance == null
    {
      instance := null;
    }

    /** `initialize`: the existing instance when there is one (the new configuration is
        ignored); otherwise the native SDK is initialised and, unless that fails, a new
        instance is stored and returned. */
    method Initialize(config: M.ULinkConfig, nativeFailure: Option<string>) returns (r: Result<ULink, string>)
      modifies this
      ensures old(instance) != null ==> r == Ok(old(instance)) && instance == old(instance)
      ensures old(instance) == null && nativeFailure.Some? ==>
                r == Err(nativeFailure.value) && instance == null
      ensures old(instance) == null && nativeFailure.None? ==>
                r.Ok? && fresh(r.value) && r.value.config == config && instance == r.value
    {
      if instance != null {
        return Ok(instance);
      }
      if nativeFailure.Some? {
        return Err(nativeFailure.value);
      }
      var u := new ULink(config);
      instance := u;
      r := Ok(u);
    }

    /** `getInstance`. */
    method GetInstance() returns (r: ULink?)
      ensures r == instance
    {
      r := instance;
    }

    /** `dispose`: an exception of the native dispose is swallowed and the `finally`
        block clears the instance, so the outcome is the same either way. */
    method Dispose()
      modifies this
      ensures instance == null
    {
      instance := null;
    }
  }

  /** Initialize twice, dispose, then initialize again with the second configuration:
      the second initialize returns the first instance, which keeps the first
      configuration; after dispose a fresh instance holds the second one. */
  method DisposeThenInitialize(c: Companion, first: M.ULinkConfig, second: M.ULinkConfig)
      returns (a: Result<ULink, string>, b: Result<ULink, string>, d: Result<ULink, string>)
    modifies c
    ensures a.Ok? && b == a
    ensures old(c.instance) == null ==> fresh(a.value) && a.value.config == first
    ensures d.Ok? && fresh(d.value) && d.value.config == second && c.instance == d.value
  {
    a := c.Initialize(first, None);
    b := c.Initialize(second, None);
    c.Dispose();
    d := c.Initialize(second, None);
  }
}
