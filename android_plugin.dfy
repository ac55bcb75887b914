/** The Android plugin's method-call handling (FlutterUlinkSdkPlugin.kt): the
    initialization gate that defers calls made before `initialize`, the replay of
    deferred calls, the pending-intent slot for the intent that opened the app,
    and the two-second de-duplication of incoming deep-link intents.

    What each handler does once it runs (a call into the native SDK) is not part
    of this model: the ghost `log` records that it ran, and every reply the plugin
    itself sends. The native SDK's initialize and dispose outcomes and the clock
    are parameters. */
module AndroidPlugin {
  import opened Common
  import P = AndroidParsing

  // ---------------------------------------------------------------------------
  // Routing.

  /** The method handlers of the plugin; `NotImplemented` is `result.notImplemented()`. */
  datatype Handler =
    | CreateLink | ResolveLink | EndSession | SetInitialUri | GetInitialUri
    | GetInitialDeepLink | GetLastLinkData | GetCurrentSessionId | HasActiveSession
    | GetSessionState | GetInstallationId | CheckDeferredLink | Dispose | NotImplemented

  /** `requiresInitialization`: the eight methods that need the native SDK. */
  predicate RequiresInitialization(name: string): (b: bool)
    ensures b ==> Route(name) != NotImplemented
  {
    name in {"createLink", "resolveLink", "endSession", "getCurrentSessionId",
               "hasActiveSession", "getSessionState", "getInstallationId", "getInitialDeepLink"}
  }

  /** The dispatch `when` of `handleMethodCallWithInitCheck`. */
  function Route(name: string): (h: Handler)
    ensures h == NotImplemented <==>
      name !in {"createLink", "resolveLink", "endSession", "setInitialUri", "getInitialUri",
                  "getInitialDeepLink", "getLastLinkData", "getCurrentSessionId", "hasActiveSession",
                  "getSessionState", "getInstallationId", "checkDeferredLink", "dispose"}
  {
    match name
    case "createLink" => CreateLink
    case "resolveLink" => ResolveLink
    case "endSession" => EndSession
    case "setInitialUri" => SetInitialUri
    case "getInitialUri" => GetInitialUri
    case "getInitialDeepLink" => GetInitialDeepLink
    case "getLastLinkData" => GetLastLinkData
    case "getCurrentSessionId" => GetCurrentSessionId
    case "hasActiveSession" => HasActiveSession
    case "getSessionState" => GetSessionState
    case "getInstallationId" => GetInstallationId
    case "checkDeferredLink" => CheckDeferredLink
    case "dispose" => Dispose
    case _ => NotImplemented
  }

  /** The dispatch `when` of `processPendingMethodCalls`, which has no `else`. It
      has a branch for exactly the gated methods, and it is the same branch the
      direct dispatch takes: no deferred call is skipped or handled differently
      when it is replayed. */
  function ReplayRoute(name: string): (r: Option<Handler>)
    ensures r.Some? <==> RequiresInitialization(name)
    ensures r.Some? ==> r.value == Route(name)
  {
    match name
    case "createLink" => Some(CreateLink)
    case "resolveLink" => Some(ResolveLink)
    case "endSession" => Some(EndSession)
    case "getCurrentSessionId" => Some(GetCurrentSessionId)
    case "hasActiveSession" => Some(HasActiveSession)
    case "getSessionState" => Some(GetSessionState)
    case "getInstallationId" => Some(GetInstallationId)
    case "getInitialDeepLink" => Some(GetInitialDeepLink)
    case _ => None
  }

  /** What the gate of `handleMethodCallWithInitCheck` decides for a call. */
  datatype Decision = Enqueue | Reject | Run(h: Handler)

  function Gate(name: string, isInitialized: bool, initializationCompleted: bool, hasULink: bool): (d: Decision)
    ensures !RequiresInitialization(name) ==> d == Run(Route(name))
    ensures RequiresInitialization(name) && !isInitialized ==> d == Enqueue
    ensures d == Reject <==> RequiresInitialization(name) && isInitialized && initializationCompleted && !hasULink
  {
    if RequiresInitialization(name) && !isInitialized then Enqueue
    else if RequiresInitialization(name) && initializationCompleted && !hasULink then Reject
    else Run(Route(name))
  }

  /** When the two flags agree with the presence of the native SDK (as they do in
      every reachable state), a gated call is deferred exactly when the plugin is
      not initialized, and otherwise runs, never rejected. */
  lemma GateWhenConsistent(name: string, initialized: bool)
    requires RequiresInitialization(name)
    ensures Gate(name, initialized, initialized, initialized) == (if initialized then Run(Route(name)) else Enqueue)
  {
  }

  /** `initialize` is handled before the gate, so the gate never sees it; any name
      the dispatch does not know is answered with "not implemented" whatever the
      initialization state. */
  lemma InitializeAndUnknownNames(name: string, i: bool, c: bool, u: bool)
    ensures !RequiresInitialization("initialize")
    ensures Route(name) == NotImplemented ==> Gate(name, i, c, u) == Run(NotImplemented)
  {
  }

  // ---------------------------------------------------------------------------
  // Calls, replies and the log.

  /** A method call with the handle of its pending `Result`. */
  datatype Call = Call(handle: nat, name: string, args: Fields)

  datatype Reply = ReplySuccess | ReplyError(code: string, cause: P.Failure) | ReplyNotImplemented

  datatype Event =
    | Executed(handle: nat, h: Handler, withULink: bool)   // a handler ran for the call
    | Replied(handle: nat, reply: Reply)                    // the plugin itself answered the call
    | DeepLinkHandled(url: string, time: int)               // an intent was handed to the native SDK

  const NotInitialized := ReplyError("INITIALIZATION_ERROR", P.Raised("ULink not initialized"))

  /** What replaying one deferred call does: run its handler, or, when the native
      SDK is missing, fail it with INITIALIZATION_ERROR and run nothing. */
  function ReplayEvents(c: Call, hasULink: bool): seq<Event> {
    if !hasULink then [Replied(c.handle, NotInitialized)]
    else match ReplayRoute(c.name)
      case Some(h) => [Executed(c.handle, h, true)]
      case None => []
  }

  /** The events of replaying a queue in order. */
  function Drain(q: seq<Call>, hasULink: bool): seq<Event> {
    if q == [] then [] else Drain(q[..|q| - 1], hasULink) + ReplayEvents(q[|q| - 1], hasULink)
  }

  /** Replaying one more call of a queue appends that call's events. */
  lemma DrainStep(q: seq<Call>, i: nat, hasULink: bool)
    requires i < |q|
    ensures Drain(q[..i + 1], hasULink) == Drain(q[..i], hasULink) + ReplayEvents(q[i], hasULink)
  {
    assert q[..i + 1][..i] == q[..i];
  }

  /** A queue of gated calls is replayed one event per call, in arrival order:
      every call runs exactly once with the native SDK present, and every call
      fails without it. */
  lemma {:induction false} DrainExactlyOnceInOrder(q: seq<Call>, hasULink: bool)
    requires forall k :: 0 <= k < |q| ==> RequiresInitialization(q[k].name)
    ensures |Drain(q, hasULink)| == |q|
    ensures forall k :: 0 <= k < |q| ==>
      Drain(q, hasULink)[k] == (if hasULink then Executed(q[k].handle, Route(q[k].name), true)
                                else Replied(q[k].handle, NotInitialized))
  {
    if q != [] {
      var init := q[..|q| - 1];
      DrainExactlyOnceInOrder(init, hasULink);
      assert forall k :: 0 <= k < |init| ==> init[k] == q[k];
    }
  }

  // ---------------------------------------------------------------------------
  // De-duplication of deep-link intents.

  /** The last accepted intent's URL and the time it was accepted. */
  datatype Slot = Slot(last: Option<string>, time: int)

  /** The same URL as the last accepted one, less than 2000 ms later. */
  predicate Suppressed(s: Slot, url: string, now: int) {
    s.last == Some(url) && now - s.time < 2000
  }

  /** The deliveries a run of intents gets through, starting from a slot, each
      accepted one becoming the new slot. */
  function Accepted(s: Slot, ds: seq<(string, int)>): (r: seq<(string, int)>)
    ensures |r| <= |ds|
    ensures forall k :: 0 <= k < |r| ==> r[k] in ds
    ensures ds != [] && !Suppressed(s, ds[0].0, ds[0].1) ==> |r| > 0 && r[0] == ds[0]
    decreases |ds|
  {
    if ds == [] then []
    else if Suppressed(s, ds[0].0, ds[0].1) then Accepted(s, ds[1..])
    else [ds[0]] + Accepted(Slot(Some(ds[0].0), ds[0].1), ds[1..])
  }

  /** Two deliveries of the same URL that are accepted one after the other are at
      least 2000 ms apart, and so is the first one from the slot it started from. */
  lemma {:induction false} AcceptedRepeatsAreSpaced(s: Slot, ds: seq<(string, int)>)
    ensures var r := Accepted(s, ds);
      (|r| > 0 && s.last == Some(r[0].0) ==> r[0].1 - s.time >= 2000) &&
      (forall k :: 0 <= k < |r| - 1 && r[k].0 == r[k + 1].0 ==> r[k + 1].1 - r[k].1 >= 2000)
    decreases |ds|
  {
    if ds != [] {
      if Suppressed(s, ds[0].0, ds[0].1) {
        AcceptedRepeatsAreSpaced(s, ds[1..]);
      } else {
        var s' := Slot(Some(ds[0].0), ds[0].1);
        AcceptedRepeatsAreSpaced(s', ds[1..]);
        var rest := Accepted(s', ds[1..]);
        assert Accepted(s, ds) == [ds[0]] + rest;
      }
    }
  }

  /** A URL that is not the slot's and does not occur earlier in the run is never
      suppressed: that delivery gets through. */
  lemma {:induction false} NewUrlGetsThrough(s: Slot, ds: seq<(string, int)>, k: nat)
    requires k < |ds| && s.last != Some(ds[k].0)
    requires forall j :: 0 <= j < k ==> ds[j].0 != ds[k].0
    ensures ds[k] in Accepted(s, ds)
    decreases |ds|
  {
    if k > 0 {
      var s' := if Suppressed(s, ds[0].0, ds[0].1) then s else Slot(Some(ds[0].0), ds[0].1);
      assert ds[1..][k - 1] == ds[k];
      forall j | 0 <= j < k - 1
        ensures ds[1..][j].0 != ds[1..][k - 1].0
      {
        assert ds[1..][j] == ds[j + 1];
      }
      NewUrlGetsThrough(s', ds[1..], k - 1);
    }
  }

  /** A suppressed intent leaves the slot as it was, so a burst of the same URL
      within 2000 ms of the accepted one gets nothing through. */
  lemma {:induction false} BurstIsSuppressed(url: string, t: int, ds: seq<(string, int)>)
    requires forall k :: 0 <= k < |ds| ==> ds[k].0 == url && t <= ds[k].1 < t + 2000
    ensures Accepted(Slot(Some(url), t), ds) == []
  {
    if ds != [] {
      BurstIsSuppressed(url, t, ds[1..]);
    }
  }

  // ---------------------------------------------------------------------------
  // The plugin.

  /** An Android intent; only its data URI is read. */
  datatype Intent = Intent(data: Option<string>)

  /** What the native SDK does when called and what the clock reads: an exception
      message from `ULink.initialize`, one from the native `dispose`, and the time. */
  datatype Env = Env(nativeInitError: Option<string>, nativeDisposeError: Option<string>, now: int)

  /** The plugin's fields other than the log. */
  datatype State = State(
    hasContext: bool,
    hasULink: bool,
    isInitialized: bool,
    initializationCompleted: bool,
    pendingMethodCalls: seq<Call>,
    pendingIntent: Option<Intent>,
    initialIntentProcessed: bool,
    lastProcessedIntent: Option<string>,
    lastProcessedTime: int,
    enableDeepLinkIntegration: bool)

  /** The whole `config` argument of `initialize`, parsed: required, a map, and a
      valid configuration. */
  function InitConfig(args: Fields): (r: Result<P.NativeConfig, P.Failure>)
    ensures !HasKey(args, "config") ==> r == Err(P.Raised("Config is required"))
    ensures AsMap(Lookup(args, "config")).Some? ==> r == P.ParseConfig(AsMap(Lookup(args, "config")).value)
  {
    match Lookup(args, "config")
    case None => Err(P.Raised("Config is required"))
    case Some(v) => if v.VMap? then P.ParseConfig(v.entries) else Err(P.CastFailed("config"))
  }

  /** Whether `handleIntent` hands an intent to the native SDK. */
  predicate Handles(enabled: bool, hasULink: bool, s: Slot, intent: Intent, now: int) {
    enabled && intent.data.Some? && hasULink && !Suppressed(s, intent.data.value, now)
  }

  class Plugin {
    var hasContext: bool
    var hasULink: bool                  // `ulink != null`
    var isInitialized: bool
    var initializationCompleted: bool
    var pendingMethodCalls: seq<Call>
    var pendingIntent: Option<Intent>
    var initialIntentProcessed: bool
    var lastProcessedIntent: Option<string>
    var lastProcessedTime: int
    var enableDeepLinkIntegration: bool
    ghost var log: seq<Event>

    function St(): State
      reads this
    {
      State(hasContext, hasULink, isInitialized, initializationCompleted, pendingMethodCalls,
            pendingIntent, initialIntentProcessed, lastProcessedIntent, lastProcessedTime,
            enableDeepLinkIntegration)
    }

    function LastSlot(): Slot
      reads this
    {
      Slot(lastProcessedIntent, lastProcessedTime)
    }

    /** Both flags are set exactly while the native SDK is present, only gated calls
        are ever deferred, nothing stays deferred once initialized, and an intent is
        only kept pending while there is no native SDK to hand it to. */
    ghost predicate Valid()
      reads this
    {
      && hasULink == isInitialized == initializationCompleted
      && (isInitialized ==> pendingMethodCalls == [])
      && (forall k :: 0 <= k < |pendingMethodCalls| ==> RequiresInitialization(pendingMethodCalls[k].name))
      && (hasULink ==> pendingIntent.None?)
    }

    constructor ()
      ensures Valid()
      ensures St() == State(false, false, false, false, [], None, false, None, 0, true)
      ensures log == []
    {
      hasContext := false;
      hasULink := false;
      isInitialized := false;
      initializationCompleted := false;
      pendingMethodCalls := [];
      pendingIntent := None;
      initialIntentProcessed := false;
      lastProcessedIntent := None;
      lastProcessedTime := 0;
      enableDeepLinkIntegration := true;
      log := [];
    }

    /** `onAttachedToEngine`: the application context becomes available. */
    method OnAttachedToEngine()
      modifies this
      ensures St() == old(St()).(hasContext := true) && log == old(log)
    {
      hasContext := true;
    }

    /** `handleIntent`: hands the intent's URL to the native SDK unless deep links are
        disabled, there is no URL or no native SDK, or it repeats the last accepted
        URL within 2000 ms; an accepted URL becomes the last one, with its time. */
    method HandleIntent(intent: Intent, now: int)
      modifies this
      ensures Handles(old(enableDeepLinkIntegration), old(hasULink), old(LastSlot()), intent, now) ==>
        St() == old(St()).(lastProcessedIntent := intent.data, lastProcessedTime := now)
        && log == old(log) + [DeepLinkHandled(intent.data.value, now)]
      ensures !Handles(old(enableDeepLinkIntegration), old(hasULink), old(LastSlot()), intent, now) ==>
        St() == old(St()) && log == old(log)
    {
      if !enableDeepLinkIntegration {
        return;
      }
      if intent.data.Some? && hasULink {
        var uriString := intent.data.value;
        if lastProcessedIntent == Some(uriString) && now - lastProcessedTime < 2000 {
          return;
        }
        log := log + [DeepLinkHandled(uriString, now)];
        lastProcessedIntent := Some(uriString);
        lastProcessedTime := now;
      }
    }

    /** `processPendingMethodCalls`: empties the queue, then replays the calls it held. */
    method ProcessPendingMethodCalls()
      modifies this
      ensures St() == old(St()).(pendingMethodCalls := [])
      ensures log == old(log) + Drain(old(pendingMethodCalls), hasULink)
    {
      var callsToProcess := pendingMethodCalls;
      pendingMethodCalls := [];
      ghost var events: seq<Event> := [];
      label Emptied:
      if !hasULink {
        for i := 0 to |callsToProcess|
          invariant unchanged@Emptied(this)
          invariant events == Drain(callsToProcess[..i], false)
        {
          DrainStep(callsToProcess, i, false);
          events := events + [Replied(callsToProcess[i].handle, NotInitialized)];
        }
      } else {
        for i := 0 to |callsToProcess|
          invariant unchanged@Emptied(this)
          invariant events == Drain(callsToProcess[..i], true)
        {
          DrainStep(callsToProcess, i, true);
          var pendingCall := callsToProcess[i];
          match ReplayRoute(pendingCall.name)
          case Some(h) =>
            events := events + [Executed(pendingCall.handle, h, true)];
          case None =>
        }
      }
      assert callsToProcess[..|callsToProcess|] == callsToProcess;
      log := log + events;
    }

    /** The effect of the plugin's `dispose`: when the native dispose throws,
        DISPOSE_ERROR and nothing changes; otherwise the native SDK and both flags
        are reset and the deferred calls are dropped without an answer. */
    twostate predicate Disposed(handle: nat, nativeDisposeError: Option<string>)
      reads this
    {
      if old(hasULink) && nativeDisposeError.Some? then
        St() == old(St())
        && log == old(log) + [Replied(handle, ReplyError("DISPOSE_ERROR", P.Raised(nativeDisposeError.value)))]
      else
        St() == old(St()).(hasULink := false, isInitialized := false, initializationCompleted := false,
                           pendingMethodCalls := [])
        && log == old(log) + [Replied(handle, ReplySuccess)]
    }

    method DisposePlugin(handle: nat, nativeDisposeError: Option<string>)
      modifies this
      ensures Disposed(handle, nativeDisposeError)
    {
      if hasULink && nativeDisposeError.Some? {
        log := log + [Replied(handle, ReplyError("DISPOSE_ERROR", P.Raised(nativeDisposeError.value)))];
        return;
      }
      hasULink := false;
      isInitialized := false;
      initializationCompleted := false;
      pendingMethodCalls := [];
      log := log + [Replied(handle, ReplySuccess)];
    }

    /** The effect of `handleMethodCallWithInitCheck` for each decision of the gate:
        a deferred call is appended to the queue and left unanswered, a rejected one
        answered with INITIALIZATION_ERROR, and a dispatched one handled, with
        `dispose` resetting the plugin and unknown names answered "not implemented". */
    twostate predicate GateHandled(c: Call, env: Env)
      reads this
    {
      var d := Gate(c.name, old(isInitialized), old(initializationCompleted), old(hasULink));
      if d == Enqueue then
        St() == old(St()).(pendingMethodCalls := old(pendingMethodCalls) + [c]) && log == old(log)
      else if d == Reject then
        St() == old(St()) && log == old(log) + [Replied(c.handle, NotInitialized)]
      else if d.h == Dispose then
        Disposed(c.handle, env.nativeDisposeError)
      else if d.h == NotImplemented then
        St() == old(St()) && log == old(log) + [Replied(c.handle, ReplyNotImplemented)]
      else
        St() == old(St()) && log == old(log) + [Executed(c.handle, d.h, old(hasULink))]
    }

    method HandleMethodCallWithInitCheck(c: Call, env: Env)
      modifies this
      ensures GateHandled(c, env)
    {
      if RequiresInitialization(c.name) {
        if !isInitialized {
          pendingMethodCalls := pendingMethodCalls + [c];
          return;
        } else if initializationCompleted && !hasULink {
          log := log + [Replied(c.handle, NotInitialized)];
          return;
        }
      }
      var h := Route(c.name);
      if h == Dispose {
        DisposePlugin(c.handle, env.nativeDisposeError);
      } else if h == NotImplemented {
        log := log + [Replied(c.handle, ReplyNotImplemented)];
      } else {
        log := log + [Executed(c.handle, h, hasULink)];
      }
    }

    /** The state a successful `initialize` leaves, with deep links `enabled`: both
        flags set, the pending intent handled when deep links are enabled and then
        cleared, the deferred calls replayed in order with the native SDK present,
        and success answered last. */
    twostate predicate InitSucceeded(handle: nat, enabled: bool, now: int)
      reads this
    {
      var handled := old(pendingIntent).Some? && enabled;
      var accepted := handled && Handles(true, true, old(LastSlot()), old(pendingIntent).value, now);
      && St() == old(St()).(hasULink := true, isInitialized := true, initializationCompleted := true,
                            enableDeepLinkIntegration := enabled, pendingIntent := None, pendingMethodCalls := [],
                            initialIntentProcessed := old(initialIntentProcessed) || handled,
                            lastProcessedIntent := if accepted then old(pendingIntent).value.data else old(lastProcessedIntent),
                            lastProcessedTime := if accepted then now else old(lastProcessedTime))
      && log == old(log)
                + (if accepted then [DeepLinkHandled(old(pendingIntent).value.data.value, now)] else [])
                + Drain(old(pendingMethodCalls), true)
                + [Replied(handle, ReplySuccess)]
    }

    /** The pending-intent step of `initialize`, once the native SDK is up: the
        pending intent is handled when deep links are enabled, then cleared. */
    method HandlePendingIntent(now: int)
      requires hasULink
      modifies this
      ensures var handled := old(pendingIntent).Some? && old(enableDeepLinkIntegration);
        var accepted := handled && Handles(true, true, old(LastSlot()), old(pendingIntent).value, now);
        && St() == old(St()).(pendingIntent := None, initialIntentProcessed := old(initialIntentProcessed) || handled,
                              lastProcessedIntent := if accepted then old(pendingIntent).value.data else old(lastProcessedIntent),
                              lastProcessedTime := if accepted then now else old(lastProcessedTime))
        && log == old(log) + (if accepted then [DeepLinkHandled(old(pendingIntent).value.data.value, now)] else [])
    {
      if pendingIntent.Some? && enableDeepLinkIntegration {
        HandleIntent(pendingIntent.value, now);
        initialIntentProcessed := true;
      }
      pendingIntent := None;
    }

    /** The part of `initialize` after the native SDK is up, with the deep-link flag
        taken from the config. */
    method CompleteInitialization(handle: nat, enabled: bool, now: int)
      modifies this
      ensures InitSucceeded(handle, enabled, now)
    {
      enableDeepLinkIntegration := enabled;
      hasULink := true;
      isInitialized := true;
      initializationCompleted := true;
      HandlePendingIntent(now);
      ghost var calls := pendingMethodCalls;
      assert calls == old(pendingMethodCalls);
      ProcessPendingMethodCalls();
      log := log + [Replied(handle, ReplySuccess)];
    }

    /** The effect of the plugin's `initialize`. A missing or invalid config, a
        missing context and a failing native initialize each answer with an error
        and change nothing but the deep-link flag, which is taken from any config
        that parses; otherwise initialization succeeds. */
    twostate predicate InitHandled(handle: nat, config: Result<P.NativeConfig, P.Failure>, env: Env)
      reads this
    {
      if config.Err? then
        St() == old(St())
        && log == old(log) + [Replied(handle, ReplyError("INITIALIZATION_ERROR", config.error))]
      else if !old(hasContext) then
        St() == old(St()).(enableDeepLinkIntegration := config.value.enableDeepLinkIntegration)
        && log == old(log) + [Replied(handle, ReplyError("CONTEXT_ERROR", P.Raised("Context not available")))]
      else if env.nativeInitError.Some? then
        St() == old(St()).(enableDeepLinkIntegration := config.value.enableDeepLinkIntegration)
        && log == old(log) + [Replied(handle, ReplyError("INITIALIZATION_ERROR", P.Raised(env.nativeInitError.value)))]
      else
        InitSucceeded(handle, config.value.enableDeepLinkIntegration, env.now)
    }

    method Initialize(c: Call, env: Env)
      modifies this
      ensures InitHandled(c.handle, InitConfig(c.args), env)
    {
      var config := InitConfig(c.args);
      if config.Err? {
        log := log + [Replied(c.handle, ReplyError("INITIALIZATION_ERROR", config.error))];
        return;
      }
      ApplyConfig(c.handle, config.value, env);
    }

    /** The part of `initialize` after the config parsed. */
    method ApplyConfig(handle: nat, config: P.NativeConfig, env: Env)
      modifies this
      ensures InitHandled(handle, Ok(config), env)
    {
      var enabled := config.enableDeepLinkIntegration;
      if !hasContext {
        enableDeepLinkIntegration := enabled;
        log := log + [Replied(handle, ReplyError("CONTEXT_ERROR", P.Raised("Context not available")))];
        return;
      }
      if env.nativeInitError.Some? {
        enableDeepLinkIntegration := enabled;
        log := log + [Replied(handle, ReplyError("INITIALIZATION_ERROR", P.Raised(env.nativeInitError.value)))];
        return;
      }
      CompleteInitialization(handle, enabled, env.now);
    }

    /** `onMethodCall`: `initialize` goes straight to initialization, everything else
        through the gate. */
    method OnMethodCall(c: Call, env: Env)
      requires Valid()
      modifies this
      ensures Valid()
      ensures c.name == "initialize" ==> InitHandled(c.handle, InitConfig(c.args), env)
      ensures c.name != "initialize" ==> GateHandled(c, env)
      ensures c.name != "initialize" && RequiresInitialization(c.name) && !old(isInitialized) ==>
        St() == old(St()).(pendingMethodCalls := old(pendingMethodCalls) + [c]) && log == old(log)
      ensures c.name != "initialize" && RequiresInitialization(c.name) && old(isInitialized) ==>
        St() == old(St()) && log == old(log) + [Executed(c.handle, Route(c.name), true)]
    {
      if c.name == "initialize" {
        Initialize(c, env);
      } else {
        HandleMethodCallWithInitCheck(c, env);
      }
    }

    /** `onAttachedToActivity`: with deep links enabled, the activity's intent, if it
        has a URL and no initial intent was processed yet, is kept pending while
        there is no native SDK and handled at once otherwise. */
    method OnAttachedToActivity(activityIntent: Option<Intent>, now: int)
      requires Valid()
      modifies this
      ensures Valid()
      ensures !old(enableDeepLinkIntegration) || activityIntent.None? || old(initialIntentProcessed)
              || activityIntent.value.data.None? ==>
        St() == old(St()) && log == old(log)
      ensures old(enableDeepLinkIntegration) && activityIntent.Some? && !old(initialIntentProcessed)
              && activityIntent.value.data.Some? && !old(hasULink) ==>
        St() == old(St()).(pendingIntent := activityIntent) && log == old(log)
      ensures old(enableDeepLinkIntegration) && activityIntent.Some? && !old(initialIntentProcessed)
              && activityIntent.value.data.Some? && old(hasULink) ==>
        if Handles(true, true, old(LastSlot()), activityIntent.value, now) then
          St() == old(St()).(lastProcessedIntent := activityIntent.value.data, lastProcessedTime := now,
                             initialIntentProcessed := true)
          && log == old(log) + [DeepLinkHandled(activityIntent.value.data.value, now)]
        else
          St() == old(St()).(initialIntentProcessed := true) && log == old(log)
    {
      if !enableDeepLinkIntegration {
        return;
      }
      if activityIntent.Some? {
        var intent := activityIntent.value;
        if !initialIntentProcessed && intent.data.Some? {
          if !hasULink {
            pendingIntent := activityIntent;
          } else {
            HandleIntent(intent, now);
            initialIntentProcessed := true;
          }
        }
      }
    }

    /** `onNewIntent`: false, and nothing done, exactly when deep links are disabled. */
    method OnNewIntent(intent: Intent, now: int) returns (r: bool)
      requires Valid()
      modifies this
      ensures Valid()
      ensures r == old(enableDeepLinkIntegration)
      ensures Handles(old(enableDeepLinkIntegration), old(hasULink), old(LastSlot()), intent, now) ==>
        St() == old(St()).(lastProcessedIntent := intent.data, lastProcessedTime := now)
        && log == old(log) + [DeepLinkHandled(intent.data.value, now)]
      ensures !Handles(old(enableDeepLinkIntegration), old(hasULink), old(LastSlot()), intent, now) ==>
        St() == old(St()) && log == old(log)
    {
      if !enableDeepLinkIntegration {
        return false;
      }
      HandleIntent(intent, now);
      return true;
    }
  }

  /** A gated call made on a plugin attached to its engine but not initialized is
      queued, unanswered. */
  method CallBeforeInitialize(c: Call, now: int) returns (p: Plugin)
    requires RequiresInitialization(c.name)
    ensures fresh(p) && p.Valid()
    ensures p.St() == State(true, false, false, false, [c], None, false, None, 0, true) && p.log == []
  {
    p := new Plugin();
    p.OnAttachedToEngine();
    p.OnMethodCall(c, Env(None, None, now));
  }

  /** A gated call made before `initialize` waits in the queue and runs once, with
      the handler the direct dispatch would pick, when initialization with a valid
      config succeeds, before success is answered. */
  method DeferredCallScenario(c: Call, init: Call, now: int) returns (p: Plugin)
    requires RequiresInitialization(c.name) && InitConfig(init.args).Ok?
    ensures fresh(p) && p.Valid() && p.isInitialized && p.pendingMethodCalls == []
    ensures p.log == [Executed(c.handle, Route(c.name), true), Replied(init.handle, ReplySuccess)]
  {
    p := CallBeforeInitialize(c, now);
    assert ReplayRoute(c.name) == Some(Route(c.name));
    assert Drain([c], true) == [Executed(c.handle, Route(c.name), true)];
    p.Initialize(init, Env(None, None, now));
  }

  /** After a successful `dispose`, a gated call waits again and nothing is answered
      for it. */
  method DisposeScenario(p: Plugin, handle: nat, now: int)
    requires p.Valid() && p.isInitialized
    modifies p
    ensures p.Valid() && !p.isInitialized
    ensures p.pendingMethodCalls == [Call(handle + 1, "createLink", [])]
    ensures p.log == old(p.log) + [Replied(handle, ReplySuccess)]
  {
    var dispose := Call(handle, "dispose", []);
    p.OnMethodCall(dispose, Env(None, None, now));
    assert !p.isInitialized && p.pendingMethodCalls == [];
    var again := Call(handle + 1, "createLink", []);
    p.OnMethodCall(again, Env(None, None, now));
  }
}
