/** The iOS plugin's own state (FlutterUlinkSdkPlugin.swift): the queue of deep
    links that arrive before the native SDK is up, their replay once `initialize`
    succeeds, `dispose`, the method dispatch, and the app-delegate swizzler that
    forwards universal links and URL schemes to the plugin.

    What the native SDK does with a link (`processULinkUrl`, `resolveLink`) is an
    opaque outcome: the ghost `log` records `Processing(url)` where the plugin
    hands a link over, and every stream error and reply the plugin itself sends.
    The native initialize's outcome is a parameter. */
module IosPlugin {
  import opened Common
  import S = IosSupport

  /** A deep link received before initialization, with its `forceProcessing` flag. */
  datatype PendingDeepLink = PendingDeepLink(url: string, forceProcessing: bool)

  /** What the plugin answers on the method channel. */
  datatype Reply = Success | Failure(code: string, message: string) | MethodNotImplemented

  datatype Event =
    | Processing(url: string)
    | StreamError(stream: string, code: string, message: string)
    | Dispatched(handle: nat, name: string)
    | Replied(handle: nat, reply: Reply)

  /** A method-channel call: its result handle, method name and `arguments`. */
  datatype Call = Call(handle: nat, name: string, arguments: Option<Value>)

  /** The method names `handle(_:result:)` dispatches; every other name is answered
      `FlutterMethodNotImplemented`, `handleDeepLink` included. */
  const Methods: set<string> :=
    {"initialize", "createLink", "resolveLink", "endSession", "setInitialUri", "getInitialUri",
     "getInitialDeepLink", "getLastLinkData", "getCurrentSessionId", "hasActiveSession",
     "getSessionState", "getInstallationId", "getInstallationInfo", "isReinstall",
     "checkDeferredLink", "dispose"}

  /** The error a deep link gets on both link streams when initialization has
      completed but there is no native SDK. */
  function NotInitializedErrors(url: string): seq<Event> {
    var message := "ULink not initialized, cannot handle deep link: " + url;
    [StreamError("dynamic", "NOT_INITIALIZED", message), StreamError("unified", "NOT_INITIALIZED", message)]
  }

  // ---------------------------------------------------------------------------
  // Replay of the queued deep links.

  /** What reprocessing one queued link does once the native SDK is present. */
  function ReplayStep(d: PendingDeepLink, enabled: bool): seq<Event> {
    if enabled || d.forceProcessing then [Processing(d.url)] else []
  }

  /** The events of the replay loop in `initialize`, entry after entry. */
  function Replay(q: seq<PendingDeepLink>, enabled: bool): seq<Event> {
    if |q| == 0 then [] else Replay(q[..|q| - 1], enabled) + ReplayStep(q[|q| - 1], enabled)
  }

  /** The links a replay hands over: the entries that deep-link integration or their
      own `forceProcessing` admits, in arrival order. */
  function EligibleUrls(q: seq<PendingDeepLink>, enabled: bool): seq<string> {
    if |q| == 0 then []
    else (if enabled || q[0].forceProcessing then [q[0].url] else []) + EligibleUrls(q[1..], enabled)
  }

  function ProcessingAll(urls: seq<string>): (r: seq<Event>)
    ensures |r| == |urls| && forall k :: 0 <= k < |urls| ==> r[k] == Processing(urls[k])
  {
    seq(|urls|, k requires 0 <= k < |urls| => Processing(urls[k]))
  }

  lemma {:induction false} EligibleAppend(a: seq<PendingDeepLink>, d: PendingDeepLink, enabled: bool)
    ensures EligibleUrls(a + [d], enabled)
            == EligibleUrls(a, enabled) + (if enabled || d.forceProcessing then [d.url] else [])
    decreases |a|
  {
    if |a| == 0 {
      assert a + [d] == [d];
      assert [d][1..] == [];
    } else {
      assert (a + [d])[0] == a[0];
      assert (a + [d])[1..] == a[1..] + [d];
      EligibleAppend(a[1..], d, enabled);
    }
  }

  /** The replay hands over exactly the eligible queued links, each once, in
      arrival order, and emits nothing else. */
  lemma {:induction false} ReplayIsEligibleInOrder(q: seq<PendingDeepLink>, enabled: bool)
    ensures Replay(q, enabled) == ProcessingAll(EligibleUrls(q, enabled))
    decreases |q|
  {
    if |q| > 0 {
      var init, d := q[..|q| - 1], q[|q| - 1];
      assert q == init + [d];
      ReplayIsEligibleInOrder(init, enabled);
      EligibleAppend(init, d, enabled);
      var u, t := EligibleUrls(init, enabled), (if enabled || d.forceProcessing then [d.url] else []);
      assert ProcessingAll(u + t) == ProcessingAll(u) + ProcessingAll(t);
    }
  }

  /** With deep-link integration enabled every queued link is replayed. */
  lemma {:induction false} EligibleWhenEnabled(q: seq<PendingDeepLink>)
    ensures EligibleUrls(q, true) == seq(|q|, k requires 0 <= k < |q| => q[k].url)
    decreases |q|
  {
    if |q| > 0 {
      EligibleWhenEnabled(q[1..]);
    }
  }

  /** With integration disabled by the new config only forced links survive: each
      replayed link is the URL of a forced entry. */
  lemma {:induction false} EligibleWhenDisabled(q: seq<PendingDeepLink>)
    ensures forall u :: u in EligibleUrls(q, false) ==>
              exists k :: 0 <= k < |q| && q[k].forceProcessing && q[k].url == u
    decreases |q|
  {
    if |q| > 0 {
      EligibleWhenDisabled(q[1..]);
      forall u | u in EligibleUrls(q, false)
        ensures exists k :: 0 <= k < |q| && q[k].forceProcessing && q[k].url == u
      {
        if u in EligibleUrls(q[1..], false) {
          var j :| 0 <= j < |q[1..]| && q[1..][j].forceProcessing && q[1..][j].url == u;
          assert q[j + 1] == q[1..][j];
        } else {
          assert q[0].forceProcessing && q[0].url == u;
        }
      }
    }
  }

  // ---------------------------------------------------------------------------
  // Configuration arguments of `initialize`.

  /** The argument checks and the config parse of `initialize`. */
  function InitConfig(arguments: Option<Value>): (r: Result<S.ParsedConfig, Reply>)
    ensures r.Err? ==> r.error.Failure? && r.error.code in {"INVALID_ARGUMENTS", "PARSE_CONFIG_ERROR"}
    ensures (r.Err? && r.error.code == "INVALID_ARGUMENTS") <==>
      (!(arguments.Some? && arguments.value.VMap?) || AsMap(Lookup(arguments.value.entries, "config")).None?)
    ensures r.Ok? ==> (&& AsMap(Lookup(arguments.value.entries, "config")).Some?
                       && S.ParseConfig(AsMap(Lookup(arguments.value.entries, "config")).value) == Ok(r.value))
    ensures r.Err? && r.error.code == "PARSE_CONFIG_ERROR" ==> r.error.message == "API key is required"
  {
    if !(arguments.Some? && arguments.value.VMap?) then Err(Failure("INVALID_ARGUMENTS", "Config is required"))
    else match AsMap(Lookup(arguments.value.entries, "config"))
      case None => Err(Failure("INVALID_ARGUMENTS", "Config is required"))
      case Some(cm) =>
        match S.ParseConfig(cm)
        case Err(message) => Err(Failure("PARSE_CONFIG_ERROR", message))
        case Ok(pc) => Ok(pc)
  }

  // ---------------------------------------------------------------------------
  // The plugin.

  /** The plugin's fields other than the log, as one value. */
  datatype State = State(
    hasULink: bool,
    isInitialized: bool,
    initializationCompleted: bool,
    pendingDeepLinks: seq<PendingDeepLink>,
    enableDeepLinkIntegration: bool,
    enableAutomaticAppDelegateIntegration: bool,
    subscriptions: nat)

  class Plugin {
    var hasULink: bool
    var isInitialized: bool
    var initializationCompleted: bool
    var pendingDeepLinks: seq<PendingDeepLink>
    var enableDeepLinkIntegration: bool
    var enableAutomaticAppDelegateIntegration: bool
    /** The number of stream subscriptions held in `cancellables`. */
    var subscriptions: nat
    ghost var log: seq<Event>

    function St(): State
      reads this
    {
      State(hasULink, isInitialized, initializationCompleted, pendingDeepLinks,
            enableDeepLinkIntegration, enableAutomaticAppDelegateIntegration, subscriptions)
    }

    /** The native SDK is present exactly when both flags are set, and then it has
        its subscriptions and no link is waiting. */
    ghost predicate Valid()
      reads this
    {
      && isInitialized == initializationCompleted
      && hasULink == isInitialized
      && (isInitialized ==> pendingDeepLinks == [])
      && (hasULink <==> subscriptions > 0)
    }

    constructor ()
      ensures Valid()
      ensures St() == State(false, false, false, [], true, true, 0) && log == []
    {
      hasULink := false;
      isInitialized := false;
      initializationCompleted := false;
      pendingDeepLinks := [];
      enableDeepLinkIntegration := true;
      enableAutomaticAppDelegateIntegration := true;
      subscriptions := 0;
      log := [];
    }

    /** `register(with:)`: a fresh plugin, handed to the swizzler because automatic
        app-delegate integration starts enabled. */
    static method Register(swizzler: AppDelegateSwizzler) returns (p: Plugin)
      modifies swizzler
      ensures fresh(p) && p.Valid()
      ensures p.St() == State(false, false, false, [], true, true, 0) && p.log == []
      ensures swizzler.isSwizzled
      ensures swizzler.plugin == if old(swizzler.isSwizzled) then old(swizzler.plugin) else p
    {
      p := new Plugin();
      if p.enableAutomaticAppDelegateIntegration {
        swizzler.SetupSwizzling(p);
      }
    }

    /** The effect of `processDeepLinkWithErrorHandling`: a link is ignored unless
        deep-link integration or `forceProcessing` admits it; without the native SDK
        it is queued, with its flag, until initialization completes, and after that
        reported NOT_INITIALIZED on both streams; otherwise it is handed over. */
    twostate predicate DeepLinkProcessed(url: string, forceProcessing: bool)
      reads this
    {
      if !(old(enableDeepLinkIntegration) || forceProcessing) then
        St() == old(St()) && log == old(log)
      else if !old(hasULink) && !old(initializationCompleted) then
        St() == old(St()).(pendingDeepLinks := old(pendingDeepLinks) + [PendingDeepLink(url, forceProcessing)])
        && log == old(log)
      else if !old(hasULink) then
        St() == old(St()) && log == old(log) + NotInitializedErrors(url)
      else
        St() == old(St()) && log == old(log) + [Processing(url)]
    }

    method ProcessDeepLinkWithErrorHandling(url: string, forceProcessing: bool)
      modifies this
      ensures DeepLinkProcessed(url, forceProcessing)
      ensures old(Valid()) ==> Valid()
    {
      if !(enableDeepLinkIntegration || forceProcessing) {
        return;
      }
      if !hasULink {
        if !initializationCompleted {
          pendingDeepLinks := pendingDeepLinks + [PendingDeepLink(url, forceProcessing)];
          return;
        }
        log := log + NotInitializedErrors(url);
        return;
      }
      log := log + [Processing(url)];
    }

    /** `handleUniversalLink`: ignored when deep-link integration is off, otherwise
        processed without forcing. */
    method HandleUniversalLink(url: string)
      modifies this
      ensures DeepLinkProcessed(url, false)
      ensures old(Valid()) ==> Valid()
    {
      if !enableDeepLinkIntegration {
        return;
      }
      ProcessDeepLinkWithErrorHandling(url, false);
    }

    /** `handleURLScheme`: the same guard and processing as a universal link. */
    method HandleURLScheme(url: string)
      modifies this
      ensures DeepLinkProcessed(url, false)
      ensures old(Valid()) ==> Valid()
    {
      if !enableDeepLinkIntegration {
        return;
      }
      ProcessDeepLinkWithErrorHandling(url, false);
    }

    /** The state a successful native initialize leaves: the SDK present with four
        new subscriptions, both flags set, the queue emptied and its links replayed
        in order under the current integration flag, and success answered last. */
    twostate predicate InitSucceeded(handle: nat)
      reads this
    {
      && St() == old(St()).(hasULink := true, isInitialized := true, initializationCompleted := true,
                            pendingDeepLinks := [], subscriptions := old(subscriptions) + 4)
      && log == old(log) + Replay(old(pendingDeepLinks), old(enableDeepLinkIntegration)) + [Replied(handle, Success)]
    }

    /** The part of `initialize` after the native SDK is up. */
    method CompleteInitialization(handle: nat)
      modifies this
      ensures InitSucceeded(handle) && Valid()
    {
      hasULink := true;
      subscriptions := subscriptions + 4;
      isInitialized := true;
      initializationCompleted := true;
      var pendingLinks := pendingDeepLinks;
      pendingDeepLinks := [];
      ghost var s, l := St(), log;
      for i := 0 to |pendingLinks|
        invariant St() == s
        invariant log == l + Replay(pendingLinks[..i], enableDeepLinkIntegration)
      {
        assert pendingLinks[..i + 1][..i] == pendingLinks[..i];
        ProcessDeepLinkWithErrorHandling(pendingLinks[i].url, pendingLinks[i].forceProcessing);
      }
      assert pendingLinks[..|pendingLinks|] == pendingLinks;
      log := log + [Replied(handle, Success)];
    }

    /** The effect of `initialize`. Missing arguments or config, or a config without
        an API key, answer with an error and change nothing. A config that parses
        sets both integration flags, even when the native initialize then throws,
        which answers INITIALIZATION_ERROR and changes nothing else. */
    twostate predicate InitHandled(handle: nat, config: Result<S.ParsedConfig, Reply>, nativeInitError: Option<string>)
      reads this
    {
      if config.Err? then
        St() == old(St()) && log == old(log) + [Replied(handle, config.error)]
      else
        var flagged := old(St()).(enableDeepLinkIntegration := config.value.config.enableDeepLinkIntegration,
                                  enableAutomaticAppDelegateIntegration := config.value.enableAutomaticAppDelegateIntegration);
        if nativeInitError.Some? then
          St() == flagged && log == old(log) + [Replied(handle, Failure("INITIALIZATION_ERROR", nativeInitError.value))]
        else
          && St() == flagged.(hasULink := true, isInitialized := true, initializationCompleted := true,
                              pendingDeepLinks := [], subscriptions := old(subscriptions) + 4)
          && log == old(log) + Replay(old(pendingDeepLinks), config.value.config.enableDeepLinkIntegration)
                   + [Replied(handle, Success)]
    }

    method Initialize(handle: nat, arguments: Option<Value>, nativeInitError: Option<string>)
      modifies this
      ensures InitHandled(handle, InitConfig(arguments), nativeInitError)
      ensures old(Valid()) ==> Valid()
    {
      var config := InitConfig(arguments);
      InitializeWith(handle, config, nativeInitError);
    }

    /** `initialize` once its arguments have been parsed into `config`. */
    method InitializeWith(handle: nat, config: Result<S.ParsedConfig, Reply>, nativeInitError: Option<string>)
      modifies this
      ensures InitHandled(handle, config, nativeInitError)
      ensures old(Valid()) ==> Valid()
    {
      if config.Err? {
        log := log + [Replied(handle, config.error)];
        return;
      }
      ApplyConfig(config.value);
      if nativeInitError.Some? {
        log := log + [Replied(handle, Failure("INITIALIZATION_ERROR", nativeInitError.value))];
        return;
      }
      CompleteInitialization(handle);
    }

    /** The two integration flags `parseULinkConfig` stores on the plugin. */
    method ApplyConfig(pc: S.ParsedConfig)
      modifies this
      ensures St() == old(St()).(enableDeepLinkIntegration := pc.config.enableDeepLinkIntegration,
                                 enableAutomaticAppDelegateIntegration := pc.enableAutomaticAppDelegateIntegration)
      ensures log == old(log)
    {
      enableAutomaticAppDelegateIntegration := pc.enableAutomaticAppDelegateIntegration;
      enableDeepLinkIntegration := pc.config.enableDeepLinkIntegration;
    }

    /** The effect of `dispose` on the plugin: no native SDK, both flags cleared, the
        queue dropped, the subscriptions cancelled, and success answered. */
    twostate predicate Disposed(handle: nat)
      reads this
    {
      && St() == old(St()).(hasULink := false, isInitialized := false, initializationCompleted := false,
                            pendingDeepLinks := [], subscriptions := 0)
      && log == old(log) + [Replied(handle, Success)]
    }

    /** `dispose`, which also asks the swizzler to drop the plugin. */
    method Dispose(handle: nat, swizzler: AppDelegateSwizzler)
      modifies this, swizzler
      ensures Disposed(handle) && Valid()
      ensures swizzler.plugin == null && swizzler.isSwizzled == old(swizzler.isSwizzled)
    {
      subscriptions := 0;
      hasULink := false;
      isInitialized := false;
      initializationCompleted := false;
      pendingDeepLinks := [];
      swizzler.Cleanup();
      log := log + [Replied(handle, Success)];
    }

    /** `handle(_:result:)`: `initialize` and `dispose` as above, every other known
        method runs its handler, and an unknown one is answered "not implemented". */
    method Handle(c: Call, nativeInitError: Option<string>, swizzler: AppDelegateSwizzler)
      modifies this, swizzler
      ensures c.name == "initialize" ==>
        InitHandled(c.handle, InitConfig(c.arguments), nativeInitError) && unchanged(swizzler)
      ensures c.name == "dispose" ==>
        (Disposed(c.handle) && swizzler.plugin == null && swizzler.isSwizzled == old(swizzler.isSwizzled))
      ensures c.name != "initialize" && c.name != "dispose" ==>
        (&& unchanged(swizzler) && St() == old(St())
         && log == old(log) + [if c.name in Methods then Dispatched(c.handle, c.name)
                               else Replied(c.handle, MethodNotImplemented)])
      ensures old(Valid()) ==> Valid()
    {
      if c.name == "initialize" {
        Initialize(c.handle, c.arguments, nativeInitError);
      } else if c.name == "dispose" {
        Dispose(c.handle, swizzler);
      } else if c.name in Methods {
        log := log + [Dispatched(c.handle, c.name)];
      } else {
        log := log + [Replied(c.handle, MethodNotImplemented)];
      }
    }
  }

  // ---------------------------------------------------------------------------
  // The app-delegate swizzler.

  /** `ULinkAppDelegateSwizzler`: whether the app delegate's methods have been
      exchanged, and the plugin they forward to. */
  class AppDelegateSwizzler {
    var isSwizzled: bool
    var plugin: Plugin?

    constructor ()
      ensures !isSwizzled && plugin == null
    {
      isSwizzled := false;
      plugin := null;
    }

    /** `setupSwizzling(for:)`: only the first call binds a plugin. */
    method SetupSwizzling(p: Plugin)
      modifies this
      ensures isSwizzled
      ensures plugin == if old(isSwizzled) then old(plugin) else p
    {
      if isSwizzled {
        return;
      }
      plugin := p;
      isSwizzled := true;
    }

    /** `cleanup`: the plugin is dropped, but the methods stay exchanged. */
    method Cleanup()
      modifies this
      ensures plugin == null && isSwizzled == old(isSwizzled)
    {
      plugin := null;
    }

    /** The exchanged `application(_:continue:restorationHandler:)`: a web-browsing
        activity with a URL goes to the plugin as a universal link, when there is one. */
    method SwizzledContinueUserActivity(isBrowsingWeb: bool, webpageUrl: Option<string>) returns (handled: bool)
      modifies plugin
      ensures handled == (isBrowsingWeb && webpageUrl.Some? && plugin != null)
      ensures handled ==> plugin.DeepLinkProcessed(webpageUrl.value, false)
      ensures !handled && plugin != null ==> plugin.St() == old(plugin.St()) && plugin.log == old(plugin.log)
    {
      handled := false;
      if isBrowsingWeb && webpageUrl.Some? {
        if plugin != null {
          plugin.HandleUniversalLink(webpageUrl.value);
          handled := true;
        }
      }
    }

    /** The exchanged `application(_:open:options:)`: the URL goes to the plugin as a
        URL scheme, when there is one. */
    method SwizzledOpenUrl(url: string) returns (handled: bool)
      modifies plugin
      ensures handled == (plugin != null)
      ensures handled ==> plugin.DeepLinkProcessed(url, false)
    {
      handled := false;
      if plugin != null {
        plugin.HandleURLScheme(url);
        handled := true;
      }
    }
  }

  // ---------------------------------------------------------------------------
  // Consequences for a client.

  /** A universal link that arrives before an `initialize` whose config parsed and
      keeps deep-link integration on is handed to the native SDK exactly once,
      before `initialize` answers. */
  method LinkBeforeInitialize(url: string, pc: S.ParsedConfig) returns (p: Plugin)
    requires pc.config.enableDeepLinkIntegration
    ensures fresh(p) && p.Valid() && p.isInitialized && p.pendingDeepLinks == []
    ensures p.log == [Processing(url), Replied(1, Success)]
  {
    p := LinkQueuedBeforeInitialize(url);
    assert Replay([PendingDeepLink(url, false)], true) == [Processing(url)];
    p.InitializeWith(1, Ok(pc), None);
  }

  /** On a fresh plugin, a universal link waits in the queue, not forced, and
      nothing is handed over or reported yet. */
  method LinkQueuedBeforeInitialize(url: string) returns (p: Plugin)
    ensures fresh(p) && p.Valid()
    ensures p.St() == State(false, false, false, [PendingDeepLink(url, false)], true, true, 0) && p.log == []
  {
    p := new Plugin();
    p.HandleUniversalLink(url);
  }

  /** After a plugin is registered and disposed, a plugin registered later is never
      bound to the swizzler, so links opened through the app delegate reach no plugin. */
  method RegisterAfterDispose(url: string) returns (handled: bool)
    ensures !handled
  {
    var swizzler := new AppDelegateSwizzler();
    var first := Plugin.Register(swizzler);
    first.Dispose(1, swizzler);
    var second := Plugin.Register(swizzler);
    assert swizzler.plugin == null;
    handled := swizzler.SwizzledOpenUrl(url);
  }
}
