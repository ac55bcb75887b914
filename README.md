# flutter_ulink_sdk plugin core, modelled in Dafny

The flutter_ulink_sdk plugin connects Flutter apps to the native ULink deep-link
SDKs on Android and iOS. Most of the work happens inside those SDKs. This project models the
logic the plugin owns itself and proves properties of it:

- **Android plugin** (`AndroidPlugin`, `AndroidParsing`):
  - The initialization gate. It defers eight SDK-dependent methods until `initialize`
    succeeds, and replays them in arrival order afterwards. If there is no native SDK, the
    replay answers INITIALIZATION_ERROR instead.
  - The pending-intent slot for the intent that opened the app.
  - The two-second de-duplication of repeated deep-link intents.
  - `dispose`.
  - The config and link-parameter parsers.
- **iOS plugin** (`IosPlugin`, `IosSupport`):
  - The queue of deep links that arrive before initialization, each with its
    `forceProcessing` flag, and their replay once `initialize` succeeds.
  - `dispose`, and the method dispatch.
  - The app-delegate swizzler's bind-once logic.
  - The pure helpers:
    - link-data validity and stream emission;
    - the detailed error-message builder;
    - the SDK-error and session-state tables;
    - the parameter and config parsers.
- **Android bridge `ULink` class** (`BridgeULink`, `BridgeModels`, `Json`): the
  companion's single instance, plus the total conversions it performs:
  - session states and link types;
  - social tags;
  - the string-map to JSON-object round trip;
  - reading resolved data out of a JSON object.

**How the state is modelled.**
- The plugins become classes that mirror the source's mutable fields.
- Each class keeps a ghost `log` of the observable events: a handler running, a reply,
  a deep link handed to the SDK, a stream error.
- Each state change is stated as a `twostate predicate` over the whole field state
  (`St()`) and the log, and the methods are proved to satisfy it.
- `Valid()` is the invariant every state change preserves: the SDK is present exactly
  when both initialization flags are set, and nothing is queued once it is.

**Conventions.**
- Flutter channel values are a `Value` datatype.
- Every map is an association list in iteration order, and lookups take the first match.
- The native SDKs' outcomes (an init error, a dispose error) and the clock are parameters.

**Noted behaviour.** The iOS swizzler binds a plugin only on its first `setupSwizzling`.
- `cleanup` clears the plugin but leaves `isSwizzled` set.
- So a plugin registered after a dispose never receives universal links or URL schemes
  (`IosPlugin.RegisterAfterDispose`).

## Model


| member | source | states |
|---|---|---|
| Common.Lookup | android/src/main/kotlin/com/example/flutter_ulink_sdk/FlutterUlinkSdkPlugin.kt:448-458 | a map lookup finds a key exactly when some entry has it, and yields that key's first value |
| Common.Lower | android/src/main/kotlin/com/example/flutter_ulink_sdk/ULink.kt:207-213 | `lowercase()` keeps the length and lower-cases each character (ASCII) |
| Common.BoolOr | android/src/main/kotlin/com/example/flutter_ulink_sdk/FlutterUlinkSdkPlugin.kt:451-456 | `as? Boolean ?: default` gives the given boolean, and the default for anything else |
| Common.StringOr | android/src/main/kotlin/com/example/flutter_ulink_sdk/FlutterUlinkSdkPlugin.kt:450 | `as? String ?: default` gives the given string, and the default for anything else |
| AndroidParsing.MillisToSeconds | android/src/main/kotlin/com/example/flutter_ulink_sdk/FlutterUlinkSdkPlugin.kt:443 | milliseconds become whole seconds by Kotlin `Long` division, rounding toward zero also for negative values |
| Common.IntToString | ios/Classes/FlutterUlinkSdkPlugin.swift:790-791 | the decimal text of the status code is a sign exactly for negative codes followed by digits, and reading the text back with `ReadInt` gives the code |
| Json.EscapeChar | android/src/main/kotlin/com/example/flutter_ulink_sdk/ULink.kt:252 | a JSON string literal escapes a quote, a backslash or a control character with a backslash and leaves every other character as it is |
| Json.RemoveSurroundingQuotes | android/src/main/kotlin/com/example/flutter_ulink_sdk/ULink.kt:252 | `removeSurrounding("\"")` strips one pair of quotes only when the text both starts and ends with one |
| Json.EscapeIdentity | android/src/main/kotlin/com/example/flutter_ulink_sdk/ULink.kt:252 | a string with nothing to escape prints as itself inside its quotes |
| Json.EscapeShowsBackslash | android/src/main/kotlin/com/example/flutter_ulink_sdk/ULink.kt:252 | the printed literal contains a backslash exactly when the string has a character that needs escaping |
| Json.UnquotedString | android/src/main/kotlin/com/example/flutter_ulink_sdk/ULink.kt:252-262 | `toString()` with its quotes removed gives back the escaped string, and the string itself when nothing needs escaping |
| BridgeULink.ConvertNativeSessionState | android/src/main/kotlin/com/example/flutter_ulink_sdk/ULink.kt:191-199 | each native state maps to the bridge state whose native counterpart it is (IDLE to INACTIVE, INITIALIZING to STARTING, ACTIVE, ENDING, FAILED to ERROR) |
| BridgeULink.SessionStateBijection | android/src/main/kotlin/com/example/flutter_ulink_sdk/ULink.kt:191-199 | the conversion is a bijection: converting the native counterpart of a state gives that state back |
| BridgeULink.ConvertLinkType | android/src/main/kotlin/com/example/flutter_ulink_sdk/ULink.kt:207-213 | the result is always "dynamic" or "unified", and it is "dynamic" exactly when the input is "dynamic" in any case |
| BridgeULink.ConvertLinkTypeIdempotent | android/src/main/kotlin/com/example/flutter_ulink_sdk/ULink.kt:207-213 | converting a converted type changes nothing |
| BridgeULink.ConvertNativeLinkType | android/src/main/kotlin/com/example/flutter_ulink_sdk/ULink.kt:183-189 | DYNAMIC exactly for the text "dynamic"; every other text and null give UNIFIED |
| BridgeULink.ConvertNativeSocialMediaTags | android/src/main/kotlin/com/example/flutter_ulink_sdk/ULink.kt:225-233 | null maps to null, present tags to present tags, and og:title, og:description and og:image are each copied |
| BridgeULink.ConvertSocialMediaTags | android/src/main/kotlin/com/example/flutter_ulink_sdk/ULink.kt:215-223 | null maps to null, og:title, og:description and og:image are each copied, and converting back gives the original tags |
| BridgeULink.NativeSocialMediaTagsRoundTrip | android/src/main/kotlin/com/example/flutter_ulink_sdk/ULink.kt:215-233 | the two converters are mutual inverses, in the other direction as well |
| BridgeULink.StringMembers | android/src/main/kotlin/com/example/flutter_ulink_sdk/ULink.kt:201-205 | one JSON member per map entry |
| BridgeULink.MapToJsonElement | android/src/main/kotlin/com/example/flutter_ulink_sdk/ULink.kt:201-205 | the object has one member per entry, and `jsonElementToMap` of it gives the original string map back |
| BridgeULink.MemberTexts | android/src/main/kotlin/com/example/flutter_ulink_sdk/ULink.kt:237-243 | `mapValues` keeps one entry per member |
| BridgeULink.JsonElementToMap | android/src/main/kotlin/com/example/flutter_ulink_sdk/ULink.kt:235-248 | a map comes back exactly for a present JSON object; null and non-objects give null |
| BridgeULink.MemberTextsKeys | android/src/main/kotlin/com/example/flutter_ulink_sdk/ULink.kt:237-243 | each entry keeps its member's key and takes the member's content, or its JSON text for a non-primitive |
| BridgeULink.StringMembersRoundTrip | android/src/main/kotlin/com/example/flutter_ulink_sdk/ULink.kt:201-248 | reading back the members built from any string map gives that map, in order (maps are association lists here, so this covers repeated keys too) |
| BridgeULink.JsonObjectToMap | android/src/main/kotlin/com/example/flutter_ulink_sdk/ULink.kt:273-285 | the raw map has one entry per member, in order, each keeping its key |
| BridgeULink.JsonObjectToMapValues | android/src/main/kotlin/com/example/flutter_ulink_sdk/ULink.kt:273-285 | each entry's value: a primitive gives its content, a JSON null the text "null", an object its own raw map, and anything else its JSON text |
| BridgeULink.ConvertJsonObjectToResolvedData | android/src/main/kotlin/com/example/flutter_ulink_sdk/ULink.kt:250-271 | as written: null gives null; slug, the two URLs and the three fallback URLs are each the value's JSON text with surrounding quotes removed; parameters and metadata are each read by `jsonElementToMap`; the type is UNIFIED exactly for "unified" in any case; no tags; the raw data is the whole object |
| BridgeULink.LowerEscapeUnified | android/src/main/kotlin/com/example/flutter_ulink_sdk/ULink.kt:252-255 | escaping a type string never makes it, or stops it being, "unified" in any case |
| BridgeULink.LinkTypeOfString | android/src/main/kotlin/com/example/flutter_ulink_sdk/ULink.kt:252-256 | a string `type` gives UNIFIED exactly when it is "unified" in any case |
| BridgeULink.LinkTypeDefaultsToDynamic | android/src/main/kotlin/com/example/flutter_ulink_sdk/ULink.kt:252-256 | a missing `type` gives DYNAMIC |
| BridgeULink.NullFieldReadsAsText | android/src/main/kotlin/com/example/flutter_ulink_sdk/ULink.kt:259 | as written, a JSON null slug becomes the text "null" |
| BridgeULink.EscapedFieldKeepsBackslash | android/src/main/kotlin/com/example/flutter_ulink_sdk/ULink.kt:259 | as written, a slug containing a quote comes back with a backslash added |
| BridgeULink.ContentField | android/src/main/kotlin/com/example/flutter_ulink_sdk/ULink.kt:259-264 | corrected field read: a JSON string gives its own content and a JSON null gives null |
| BridgeULink.ConvertJsonObjectToResolvedDataFixed | android/src/main/kotlin/com/example/flutter_ulink_sdk/ULink.kt:250-271 | corrected conversion: as above, but each of the six text fields is read by `ContentField` |
| BridgeULink.FixedSlugRoundTrip | android/src/main/kotlin/com/example/flutter_ulink_sdk/ULink.kt:259 | the corrected conversion returns any string slug unchanged |
| BridgeULink.FixedAgreesOnPlainStrings | android/src/main/kotlin/com/example/flutter_ulink_sdk/ULink.kt:259-264 | on strings with nothing to escape, the written and the corrected reads agree |
| BridgeULink.ConvertNativeResolvedData | android/src/main/kotlin/com/example/flutter_ulink_sdk/ULink.kt:167-181 | iosUrl and androidUrl are always null; the slug, fallback URLs and raw data are copied; parameters and metadata are each read by `jsonElementToMap`; the type follows `convertNativeLinkType`; the tags convert back to the native ones |
| BridgeULink.ToNativeParameters | android/src/main/kotlin/com/example/flutter_ulink_sdk/ULink.kt:61-75 | domain, slug, both URLs and the three fallback URLs are copied; the type is `convertLinkType` of the given one; the parameter and metadata maps and the tags survive the conversion |
| BridgeULink.ToResponse | android/src/main/kotlin/com/example/flutter_ulink_sdk/ULink.kt:78-82 | the bridge response copies the flag, URL and error, and its data is the as-written conversion of the native data |
| BridgeULink.ToResponseFixed | android/src/main/kotlin/com/example/flutter_ulink_sdk/ULink.kt:96-100 | the same response with the corrected conversion, which returns a string slug unchanged |
| BridgeULink.CheckResponse | android/src/main/kotlin/com/example/flutter_ulink_sdk/ULink.kt:85-89 | a successful response is returned with its flag, URL and error copied and its data converted as written; an unsuccessful one becomes an error carrying its message, or the default |
| BridgeULink.CreateLinkOutcome | android/src/main/kotlin/com/example/flutter_ulink_sdk/ULink.kt:61-91 | failure gives the response's error, or "Failed to create link" when it has none; success gives the converted response |
| BridgeULink.ResolveLinkOutcome | android/src/main/kotlin/com/example/flutter_ulink_sdk/ULink.kt:93-109 | failure gives the response's error, or "Failed to resolve link" when it has none; success gives the converted response |
| BridgeULink.Companion.Initialize | android/src/main/kotlin/com/example/flutter_ulink_sdk/ULink.kt:29-44 | an existing instance is returned unchanged, whatever the new config; otherwise a native failure leaves no instance, and success stores a fresh instance holding the config |
| BridgeULink.Companion.GetInstance | android/src/main/kotlin/com/example/flutter_ulink_sdk/ULink.kt:46 | returns the stored instance |
| BridgeULink.Companion.Dispose | android/src/main/kotlin/com/example/flutter_ulink_sdk/ULink.kt:157-165 | the instance is cleared whether or not the native dispose throws |
| BridgeULink.DisposeThenInitialize | android/src/main/kotlin/com/example/flutter_ulink_sdk/ULink.kt:29-46 | a second initialize returns the very result of the first, and after a dispose the next initialize builds a fresh instance with the new config and stores it |
| AndroidParsing.StringsOf | android/src/main/kotlin/com/example/flutter_ulink_sdk/FlutterUlinkSdkPlugin.kt:457-458 | `filterIsInstance<String>` keeps only strings of the list, and of a one-item list exactly the string item |
| AndroidParsing.StringsOfConcat | android/src/main/kotlin/com/example/flutter_ulink_sdk/FlutterUlinkSdkPlugin.kt:457-458 | filtering a concatenation is the concatenation of the filtered parts, so every string item is kept in order |
| AndroidParsing.StringsOfAllStrings | android/src/main/kotlin/com/example/flutter_ulink_sdk/FlutterUlinkSdkPlugin.kt:457-458 | a list of strings is kept whole and in order |
| AndroidParsing.ParseConfig | android/src/main/kotlin/com/example/flutter_ulink_sdk/FlutterUlinkSdkPlugin.kt:439-460 | fails exactly when `apiKey` is not a string. Otherwise every field is the given value when it has the right type and its default when not: baseUrl https://api.ulink.ly; debug, persistence and redact-all false; deep links and clear-on-read true; the key list the strings of the given list, or empty; the TTL follows `TimeToLiveSeconds` |
| AndroidParsing.ConfigKeepsGivenFlags | android/src/main/kotlin/com/example/flutter_ulink_sdk/FlutterUlinkSdkPlugin.kt:452 | a boolean given for the deep-link flag is kept |
| AndroidParsing.TimeToLiveIsWholeSeconds | android/src/main/kotlin/com/example/flutter_ulink_sdk/FlutterUlinkSdkPlugin.kt:441-443 | a number of milliseconds becomes whole seconds, truncated toward zero |
| AndroidParsing.TimeToLiveFallbacks | android/src/main/kotlin/com/example/flutter_ulink_sdk/FlutterUlinkSdkPlugin.kt:441-446 | a non-number gives 0 seconds and a missing value gives 86400 |
| AndroidParsing.TimeToLiveSeconds | android/src/main/kotlin/com/example/flutter_ulink_sdk/FlutterUlinkSdkPlugin.kt:441-446 | an absent lifetime gives 86400 seconds, a present non-number 0, and a number its whole seconds by `Long` division |
| AndroidParsing.TagText | android/src/main/kotlin/com/example/flutter_ulink_sdk/FlutterUlinkSdkPlugin.kt:463-479 | a tag is null exactly when missing, and a string tag is kept as it is |
| AndroidParsing.JsonValueOf | android/src/main/kotlin/com/example/flutter_ulink_sdk/FlutterUlinkSdkPlugin.kt:481-509 | booleans become JSON booleans and everything else a JSON string |
| AndroidParsing.JsonMembersOf | android/src/main/kotlin/com/example/flutter_ulink_sdk/FlutterUlinkSdkPlugin.kt:481-509 | one member per entry, in order, each keeping its key |
| AndroidParsing.JsonMembersKeepText | android/src/main/kotlin/com/example/flutter_ulink_sdk/FlutterUlinkSdkPlugin.kt:481-509 | every member is a primitive whose content is the value's Kotlin text |
| AndroidParsing.StringParametersRoundTrip | android/src/main/kotlin/com/example/flutter_ulink_sdk/FlutterUlinkSdkPlugin.kt:481-509 | read back by the bridge, string parameters come out as they went in |
| AndroidParsing.JsonObjectOf | android/src/main/kotlin/com/example/flutter_ulink_sdk/FlutterUlinkSdkPlugin.kt:481-509 | a JSON object exactly for a map value |
| AndroidParsing.ParseParameters | android/src/main/kotlin/com/example/flutter_ulink_sdk/FlutterUlinkSdkPlugin.kt:462-524 | throws "Domain is required" exactly when the domain is not a string; type defaults to "unified"; the optional URLs are copied; parameters and metadata are the JSON objects of the given maps; tags are present exactly for a map and hold its three tag texts |
| AndroidParsing.ParametersKeepStringTags | android/src/main/kotlin/com/example/flutter_ulink_sdk/FlutterUlinkSdkPlugin.kt:463-479 | a string og:title is kept |
| AndroidPlugin.Route | android/src/main/kotlin/com/example/flutter_ulink_sdk/FlutterUlinkSdkPlugin.kt:130-145 | exactly the thirteen known methods have a handler; every other name is not implemented |
| AndroidPlugin.RequiresInitialization | android/src/main/kotlin/com/example/flutter_ulink_sdk/FlutterUlinkSdkPlugin.kt:107-114 | every gated method has a handler in the direct dispatch |
| AndroidPlugin.ReplayRoute | android/src/main/kotlin/com/example/flutter_ulink_sdk/FlutterUlinkSdkPlugin.kt:93-104 | the replay dispatch has a branch for exactly the gated methods, and it is the branch the direct dispatch takes |
| AndroidPlugin.Gate | android/src/main/kotlin/com/example/flutter_ulink_sdk/FlutterUlinkSdkPlugin.kt:116-146 | ungated methods always run; a gated one is queued before init, and rejected exactly when init completed without the SDK |
| AndroidPlugin.GateWhenConsistent | android/src/main/kotlin/com/example/flutter_ulink_sdk/FlutterUlinkSdkPlugin.kt:117-131 | with consistent flags a gated call is queued before init and runs immediately after |
| AndroidPlugin.InitializeAndUnknownNames | android/src/main/kotlin/com/example/flutter_ulink_sdk/FlutterUlinkSdkPlugin.kt:74-146 | `initialize` is not gated, and an unknown name is answered not-implemented whatever the init state |
| AndroidPlugin.DrainExactlyOnceInOrder | android/src/main/kotlin/com/example/flutter_ulink_sdk/FlutterUlinkSdkPlugin.kt:81-105 | the replay of gated calls gives one event per call in arrival order: each runs once with the SDK present, and each gets INITIALIZATION_ERROR without it |
| AndroidPlugin.Accepted | android/src/main/kotlin/com/example/flutter_ulink_sdk/FlutterUlinkSdkPlugin.kt:650-670 | a run of intents gets through at most as many deliveries as it has, each one of its own; a first delivery that is not suppressed gets through first and becomes the slot for the rest |
| AndroidPlugin.NewUrlGetsThrough | android/src/main/kotlin/com/example/flutter_ulink_sdk/FlutterUlinkSdkPlugin.kt:650-670 | a delivery whose URL is neither the slot's nor any earlier one in the run always gets through |
| AndroidPlugin.AcceptedRepeatsAreSpaced | android/src/main/kotlin/com/example/flutter_ulink_sdk/FlutterUlinkSdkPlugin.kt:650-670 | two consecutive accepted deliveries of the same URL are at least 2000 ms apart, also relative to the initial slot |
| AndroidPlugin.BurstIsSuppressed | android/src/main/kotlin/com/example/flutter_ulink_sdk/FlutterUlinkSdkPlugin.kt:655-658 | repeats of the last URL within 2000 ms of it are all suppressed, and the slot is not refreshed by them |
| AndroidPlugin.InitConfig | android/src/main/kotlin/com/example/flutter_ulink_sdk/FlutterUlinkSdkPlugin.kt:151-153 | a missing config throws "Config is required"; a config map is parsed |
| AndroidPlugin.Plugin.constructor | android/src/main/kotlin/com/example/flutter_ulink_sdk/FlutterUlinkSdkPlugin.kt:37-46 | the initial field values, and `Valid()` |
| AndroidPlugin.Plugin.OnAttachedToEngine | android/src/main/kotlin/com/example/flutter_ulink_sdk/FlutterUlinkSdkPlugin.kt:54-72 | only the context becomes available |
| AndroidPlugin.Plugin.HandleIntent | android/src/main/kotlin/com/example/flutter_ulink_sdk/FlutterUlinkSdkPlugin.kt:642-681 | nothing happens when deep links are off, the data is null, the SDK is absent, or the URL repeats the slot within 2000 ms; otherwise the URL is handed over and becomes the slot with the entry time |
| AndroidPlugin.Plugin.ProcessPendingMethodCalls | android/src/main/kotlin/com/example/flutter_ulink_sdk/FlutterUlinkSdkPlugin.kt:81-105 | the queue is emptied and the log gains exactly the replay of the old queue |
| AndroidPlugin.Plugin.DisposePlugin | android/src/main/kotlin/com/example/flutter_ulink_sdk/FlutterUlinkSdkPlugin.kt:419-436 | a native dispose error answers DISPOSE_ERROR and changes nothing; otherwise the SDK and both flags are reset and the queue dropped unanswered |
| AndroidPlugin.Plugin.HandleMethodCallWithInitCheck | android/src/main/kotlin/com/example/flutter_ulink_sdk/FlutterUlinkSdkPlugin.kt:116-146 | queued calls go to the end of the queue unanswered, rejected ones get INITIALIZATION_ERROR, dispatched ones run, dispose resets, unknown ones get not-implemented |
| AndroidPlugin.Plugin.HandlePendingIntent | android/src/main/kotlin/com/example/flutter_ulink_sdk/FlutterUlinkSdkPlugin.kt:168-175 | with deep links on, the pending intent goes through `handleIntent` and marks the initial intent processed; the pending intent is cleared either way |
| AndroidPlugin.Plugin.ApplyConfig | android/src/main/kotlin/com/example/flutter_ulink_sdk/FlutterUlinkSdkPlugin.kt:154-181 | with a parsed config: a missing context or a failing native init answers an error and sets only the deep-link flag; otherwise initialization succeeds |
| AndroidPlugin.Plugin.CompleteInitialization | android/src/main/kotlin/com/example/flutter_ulink_sdk/FlutterUlinkSdkPlugin.kt:156-180 | both flags set; the pending intent handled first when deep links are on, then cleared; the queue replayed with the SDK; success answered last |
| AndroidPlugin.Plugin.Initialize | android/src/main/kotlin/com/example/flutter_ulink_sdk/FlutterUlinkSdkPlugin.kt:148-186 | a bad config, a missing context or a failing native init answers an error, leaves flags and queue unchanged, and sets only the deep-link flag from a config that parsed; otherwise initialization succeeds as above |
| AndroidPlugin.Plugin.OnMethodCall | android/src/main/kotlin/com/example/flutter_ulink_sdk/FlutterUlinkSdkPlugin.kt:74-79 | routes `initialize` past the gate, keeps `Valid()`, and in reachable states queues gated calls before init and runs them immediately after |
| AndroidPlugin.Plugin.OnAttachedToActivity | android/src/main/kotlin/com/example/flutter_ulink_sdk/FlutterUlinkSdkPlugin.kt:591-615 | with deep links on and an unprocessed launch intent with data: it is stored as the pending intent when the SDK is absent; otherwise it goes through `handleIntent` (slot and log updated exactly when it is accepted) and the initial intent is marked processed; in every other case nothing changes |
| AndroidPlugin.Plugin.OnNewIntent | android/src/main/kotlin/com/example/flutter_ulink_sdk/FlutterUlinkSdkPlugin.kt:633-640 | returns false exactly when deep links are off, and otherwise handles the intent |
| AndroidPlugin.CallBeforeInitialize | android/src/main/kotlin/com/example/flutter_ulink_sdk/FlutterUlinkSdkPlugin.kt:116-124 | on a fresh plugin attached to its engine, a gated call is queued and not answered |
| AndroidPlugin.DeferredCallScenario | android/src/main/kotlin/com/example/flutter_ulink_sdk/FlutterUlinkSdkPlugin.kt:74-186 | a gated call made before `initialize` with a valid config runs once, with the handler the direct dispatch picks, before `initialize` answers success |
| AndroidPlugin.DisposeScenario | android/src/main/kotlin/com/example/flutter_ulink_sdk/FlutterUlinkSdkPlugin.kt:419-436 | after dispose a gated call is queued again and nothing is answered for it |
| IosSupport.IsValidLinkData | ios/Classes/FlutterUlinkSdkPlugin.swift:634-671 | link data is valid exactly when one of slug, parameters, iosUrl, androidUrl, fallbackUrl and metadata is present and non-empty |
| IosSupport.FallbackUrlsIgnored | ios/Classes/FlutterUlinkSdkPlugin.swift:634-671 | the iOS and Android fallback URLs never affect validity |
| IosSupport.StreamEmission | ios/Classes/FlutterUlinkSdkPlugin.swift:614-632 | valid data is sent as an event unchanged; invalid data is never an event but an INVALID_LINK_DATA error naming the stream |
| IosSupport.HttpPart | ios/Classes/FlutterUlinkSdkPlugin.swift:788-793 | the HTTP part is added exactly when the base lacks "HTTP " and the data has an integer status code |
| IosSupport.BackendPart | ios/Classes/FlutterUlinkSdkPlugin.swift:795-802 | the backend part is added exactly when the base lacks "Backend:" and the data has a message or error, preferring the message |
| IosSupport.DetailsPart | ios/Classes/FlutterUlinkSdkPlugin.swift:804-807 | the details part is added exactly when the data has details |
| IosSupport.BuildDetailedErrorMessage | ios/Classes/FlutterUlinkSdkPlugin.swift:775-810 | the base comes back unchanged when it starts with "HTTP " and contains ":" or when there is no data; otherwise it is the base, then the HTTP, backend and details parts in that order |
| IosSupport.AppendHttpStatus | ios/Classes/FlutterUlinkSdkPlugin.swift:788-793 | the HTTP step appends its part and cannot create or remove a "Backend:" |
| IosSupport.AppendBackendMessage | ios/Classes/FlutterUlinkSdkPlugin.swift:795-802 | the backend step appends the part decided on the base |
| IosSupport.DetailedMessageExtendsBase | ios/Classes/FlutterUlinkSdkPlugin.swift:775-810 | the detailed message always starts with the base |
| IosSupport.MapULinkErrorToFlutter | ios/Classes/FlutterUlinkSdkPlugin.swift:846-927 | each SDK error kind gets its code and message; an HTTP error gives HTTP_ERROR with the status code and body in the details; any other error gives UNKNOWN_ERROR with its description |
| IosSupport.ErrorCodesDistinct | ios/Classes/FlutterUlinkSdkPlugin.swift:852-895 | the code of an error kind determines the kind, so the twelve specific kinds have distinct codes, none UNKNOWN_ERROR |
| IosSupport.OtherErrorsAreUnknown | ios/Classes/FlutterUlinkSdkPlugin.swift:921-926 | a foreign error reports UNKNOWN_ERROR |
| IosSupport.SessionStateName | ios/Classes/FlutterUlinkSdkPlugin.swift:527-548 | the five session states get five distinct names: SessionStateOfName reads each name back as its state |
| IosSupport.TextOf | ios/Classes/FlutterUlinkSdkPlugin.swift:980 | a string value's text |
| IosSupport.AsStringMap | ios/Classes/FlutterUlinkSdkPlugin.swift:980 | `as? [String: String]` succeeds exactly for a map of strings, and keeps its entries in order |
| IosSupport.AsStringList | ios/Classes/FlutterUlinkSdkPlugin.swift:948 | `as? [String]` succeeds exactly for a list of strings, and keeps it in order |
| IosSupport.TagsOf | ios/Classes/FlutterUlinkSdkPlugin.swift:982-993 | tags are present exactly for a map, and each of the three is kept exactly when it is a string |
| IosSupport.ParseParameters | ios/Classes/FlutterUlinkSdkPlugin.swift:967-1026 | "Type is required" first, then "Domain is required"; exactly "dynamic" makes dynamic parameters, with the three fallback URLs copied; unified ones default iosUrl, androidUrl and fallbackUrl to ""; slug, parameters, metadata and tags are read in both |
| IosSupport.DynamicIsCaseSensitive | ios/Classes/FlutterUlinkSdkPlugin.swift:997 | "Dynamic" makes unified parameters |
| IosSupport.ParseConfig | ios/Classes/FlutterUlinkSdkPlugin.swift:931-965 | fails with "API key is required" exactly when `apiKey` is not a string; otherwise every field is the given value when it has the right type and its default when not (baseUrl https://api.ulink.ly; debug, persistence and redact-all false; deep links, clear-on-read and the app-delegate flag true; the key list empty), with the TTL kept in milliseconds |
| IosSupport.MixedKeyListDropped | ios/Classes/FlutterUlinkSdkPlugin.swift:948 | a key list with a non-string item is dropped whole |
| IosPlugin.ProcessingAll | ios/Classes/FlutterUlinkSdkPlugin.swift:316-320 | one hand-over per URL, in order |
| IosPlugin.ReplayIsEligibleInOrder | ios/Classes/FlutterUlinkSdkPlugin.swift:313-320 | the replay hands over exactly the queued links that the integration flag or their own force flag admits, each once, in arrival order |
| IosPlugin.EligibleWhenEnabled | ios/Classes/FlutterUlinkSdkPlugin.swift:316-320 | with deep-link integration on, every queued link is replayed |
| IosPlugin.EligibleWhenDisabled | ios/Classes/FlutterUlinkSdkPlugin.swift:316-320 | with it off, only forced links are replayed |
| IosPlugin.InitConfig | ios/Classes/FlutterUlinkSdkPlugin.swift:254-333 | missing arguments or config give INVALID_ARGUMENTS "Config is required"; a config that does not parse gives PARSE_CONFIG_ERROR "API key is required"; otherwise the parsed config |
| IosPlugin.Plugin.constructor | ios/Classes/FlutterUlinkSdkPlugin.swift:156-178 | the initial field values, both integration flags on, and `Valid()` |
| IosPlugin.Plugin.Register | ios/Classes/FlutterUlinkSdkPlugin.swift:180-212 | a fresh valid plugin, handed to the swizzler, which keeps an earlier binding if it is already swizzled |
| IosPlugin.Plugin.ProcessDeepLinkWithErrorHandling | ios/Classes/FlutterUlinkSdkPlugin.swift:677-753 | ignored unless integration or force admits it. Without the SDK: queued with its flag before init completes, and reported NOT_INITIALIZED on both streams after. Otherwise handed over. Keeps `Valid()` |
| IosPlugin.Plugin.HandleUniversalLink | ios/Classes/FlutterUlinkSdkPlugin.swift:755-762 | processes the link without forcing |
| IosPlugin.Plugin.HandleURLScheme | ios/Classes/FlutterUlinkSdkPlugin.swift:764-771 | processes the URL without forcing |
| IosPlugin.Plugin.CompleteInitialization | ios/Classes/FlutterUlinkSdkPlugin.swift:265-324 | SDK present with four new subscriptions, both flags set, the queue emptied and replayed in order, success answered last |
| IosPlugin.Plugin.Initialize | ios/Classes/FlutterUlinkSdkPlugin.swift:253-334 | argument and parse errors answer and change nothing; a parsed config sets both integration flags; a native failure then answers INITIALIZATION_ERROR with queue and init flags untouched; otherwise initialization succeeds as above |
| IosPlugin.Plugin.InitializeWith | ios/Classes/FlutterUlinkSdkPlugin.swift:265-334 | `initialize` once its arguments are parsed: a parse error is answered and changes nothing; otherwise both integration flags are set, a native failure answers INITIALIZATION_ERROR, and success completes initialization |
| IosPlugin.Plugin.ApplyConfig | ios/Classes/FlutterUlinkSdkPlugin.swift:951-952 | the parser stores both integration flags on the plugin |
| IosPlugin.Plugin.Dispose | ios/Classes/FlutterUlinkSdkPlugin.swift:601-610 | the SDK, both flags, the queue and the subscriptions are cleared, success answered, and the swizzler drops the plugin but stays swizzled |
| IosPlugin.Plugin.Handle | ios/Classes/FlutterUlinkSdkPlugin.swift:214-251 | `initialize` and `dispose` as above; another of the sixteen known methods runs its handler; an unknown name, `handleDeepLink` included, is answered not-implemented |
| IosPlugin.AppDelegateSwizzler.constructor | ios/Classes/FlutterUlinkSdkPlugin.swift:7-14 | not swizzled, no plugin |
| IosPlugin.AppDelegateSwizzler.SetupSwizzling | ios/Classes/FlutterUlinkSdkPlugin.swift:16-22 | only the first call binds a plugin |
| IosPlugin.AppDelegateSwizzler.Cleanup | ios/Classes/FlutterUlinkSdkPlugin.swift:24-26 | drops the plugin and leaves the swizzled flag |
| IosPlugin.AppDelegateSwizzler.SwizzledContinueUserActivity | ios/Classes/FlutterUlinkSdkPlugin.swift:97-126 | handled exactly for a web-browsing activity with a URL while a plugin is bound, which then processes it as a universal link |
| IosPlugin.AppDelegateSwizzler.SwizzledOpenUrl | ios/Classes/FlutterUlinkSdkPlugin.swift:128-152 | handled exactly while a plugin is bound, which then processes the URL scheme |
| IosPlugin.LinkQueuedBeforeInitialize | ios/Classes/FlutterUlinkSdkPlugin.swift:677-762 | on a fresh plugin a universal link is queued, not forced, and nothing is handed over or reported |
| IosPlugin.LinkBeforeInitialize | ios/Classes/FlutterUlinkSdkPlugin.swift:309-324 | a link received before an `initialize` whose config parsed with deep links on is handed over exactly once, before success is answered |
| IosPlugin.RegisterAfterDispose | ios/Classes/FlutterUlinkSdkPlugin.swift:16-26 | after register, dispose and register again, no plugin receives links through the app delegate |

## Left out

- Native SDK calls are not modelled. This covers link creation and resolution, `processULinkUrl`, `handleDeepLink`,
  `checkDeferredLink`, and the session and installation accessors. A handler that reaches them is logged as run
  (`Executed`, `Dispatched`, `Processing`); native initialize and dispose are an optional error parameter.
- Coroutines, `Task`, `DispatchQueue.main.async`, Flow collection and Combine sinks are left out; each step is
  treated as happening at once and in program order. On Android, the de-duplication slot update at
  FlutterUlinkSdkPlugin.kt:668-669 is taken to follow the accept decision immediately. A throwing native
  `handleDeepLink`, which would skip that update, is not modelled.
- The Android `scope.cancel()` in `dispose` is not modelled. That scope is never recreated, so after a dispose,
  launched coroutines (including the later `handleIntent` work) would not run; the model lets them run.
- `synchronized` and `@Volatile` in the bridge companion are left out: the model is single-threaded.
- Objective-C method exchange is left out; only the `isSwizzled` and `plugin` logic is kept. The original
  app-delegate implementations are never called (that code is commented out in the source).
- The channel and event-sink plumbing, stream listeners (`setupStreamListeners`, log and reinstall streams),
  `Log`/`print`, and the listener registration in `onAttachedToActivity` are not modelled. `onDetached*` only
  detach listeners and are left out for that reason.
- The iOS TTL stays in milliseconds, because floating-point division is not modelled.
- The JSON numeric coercions and `Number.toString` formatting are not modelled. Neither are the plugin's own
  `jsonObjectToMap`, `jsonElementToMap`, `linkDataToMap`, `responseToMap` and `socialMediaTagsToMap`, which
  only shape output maps.
- `Uri.parse`, `URL(string:)` and the clock are left out: URLs are strings and the time is a parameter.
  `lowercase()` is ASCII lower-casing.
- Channel values are booleans, integers, strings, lists and maps; doubles are not modelled. A `null` in an
  argument map is treated as an absent key. Swift `NSNumber` bridging (an integer read `as? Bool`) is not
  modelled: the casts are strict type tests.
- The iOS `handleDeepLink` method is not modelled, because `handle(_:result:)` never routes to it. The
  `@unknown default` case of the SDK-error switch is folded into the known cases.
- What the handlers answer themselves (createLink, resolveLink, session accessors) is opaque: only the fact
  that they ran is logged. On iOS the NOT_INITIALIZED replies they send without an SDK are part of that.
- The models/*.kt data classes carry no logic and are mirrored as datatypes only.

## Findings

| source | as written | input that shows it | evidently intended | confidence | as-written member | corrected member |
|---|---|---|---|---|---|---|
| android/src/main/kotlin/com/example/flutter_ulink_sdk/ULink.kt:250-271 | each text field is read as `json[key]?.toString()?.removeSurrounding("\"")`, which is the JSON text of the value | a JSON null slug reads as the text "null"; the slug `a"b` reads as `a\"b`, with an escape backslash | a JSON string gives its own content and a JSON null gives null, as `jsonElementToMap` does with `content` | not executed | BridgeULink.ConvertJsonObjectToResolvedData (BridgeULink.NullFieldReadsAsText, BridgeULink.EscapedFieldKeepsBackslash) | BridgeULink.ConvertJsonObjectToResolvedDataFixed (BridgeULink.FixedSlugRoundTrip, BridgeULink.FixedAgreesOnPlainStrings), used by BridgeULink.ToResponseFixed |
