/**
 * The browser `RecommendSDK` singleton, in its two shipped forms.
 *
 * `SourceModule` is the object in src/browser/recommend-sdk.module.js;
 * `Bundle` is the newer object bundled in dist/browser/recommend-sdk.mjs.
 * Both keep the same state: the configuration with the six identity slots,
 * the journey, the page-instance id and the delivery queue. They differ in a
 * handful of decisions, each written below as a test on `build`: the
 * preserve-configuration branch of `init`, the `enableAutoFlush` gate on the
 * timer, the route-change handling, the default immediate types and their
 * merge, and whether page views skip the queue.
 *
 * The host (window, history, location, document, navigator, the cookie) is a
 * `Host` value passed to the calls that read it; `localStorage` and
 * `sessionStorage` are the `local` and `session` stores; `randomId` is the
 * `IdOracle`; `nowIso()` is the `now` argument.
 */
module BrowserSdk {
  import opened JsValues
  import opened Endpoint
  import opened GaCookie
  import opened Identity
  import opened Journey
  import opened Events
  import opened Delivery
  import opened FreshIds

  datatype Build = SourceModule | Bundle

  const SdkVersion := "1.1.0"

  /** `RecommendSDK.config`. */
  datatype Config = Config(
    env: string,
    apiUrl: string,
    domainId: Option<string>,
    channel: string,
    sdkVersion: string,
    appVersion: Option<string>,
    enableLogging: bool,
    emitIdentityEvents: bool,
    autoPageView: bool,
    autoRouteTracking: bool,
    flushOnRouteChange: bool,   // read by the bundle only
    journeyMaxLen: nat,
    batchSize: nat,
    flushIntervalMs: nat,
    enableAutoFlush: bool,      // read by the bundle only
    immediateEventTypes: map<string, bool>)

  /** The configuration object literal each build starts from. */
  function DefaultConfig(build: Build): Config {
    Config(
      env := "production", apiUrl := "", domainId := None, channel := "web",
      sdkVersion := SdkVersion, appVersion := None,
      enableLogging := false, emitIdentityEvents := true, autoPageView := true,
      autoRouteTracking := true, flushOnRouteChange := build == Bundle,
      journeyMaxLen := 100, batchSize := 20, flushIntervalMs := 10000,
      enableAutoFlush := false,
      immediateEventTypes := if build == Bundle then CommerceDefaults else ActionOnly)
  }

  /** The built-in per-environment endpoints of each build. */
  function DefaultApiUrls(build: Build): map<string, string> {
    if build == Bundle then RedprintingUrls else BetterwayUrls
  }

  /** The options object given to `init`; a missing option is None. */
  datatype BrowserOptions = BrowserOptions(
    endpoint: EndpointOptions,
    domainId: Option<string>,
    channel: Option<string>,
    sdkVersion: Option<string>,
    appVersion: Option<string>,
    enableLogging: bool,
    emitIdentityEvents: Option<bool>,
    autoPageView: Option<bool>,
    autoRouteTracking: Option<bool>,
    flushOnRouteChange: Option<bool>,
    journeyMaxLen: Option<nat>,
    batchSize: Option<nat>,
    flushIntervalMs: Option<nat>,
    enableAutoFlush: Option<bool>,
    immediateEventTypes: Option<map<string, bool>>,
    ids: Ids)

  /**
   * The non-identity part of `init`'s option handling: strings by `||`,
   * booleans and numbers only when given with the right type; the bundle also
   * reads `flushOnRouteChange`, `enableAutoFlush` and overlays the caller's
   * immediate types on its defaults.
   */
  function Configured(c: Config, o: BrowserOptions, build: Build, apiUrl: string): (r: Config)
    ensures r.apiUrl == apiUrl
    ensures r.domainId == OrNull(o.domainId)
    ensures r.env == (if Truthy(o.endpoint.env) then o.endpoint.env.value else c.env)
    ensures r.channel == (if Truthy(o.channel) then o.channel.value else c.channel)
    ensures r.sdkVersion == (if Truthy(o.sdkVersion) then o.sdkVersion.value else c.sdkVersion)
    ensures r.appVersion == (if Truthy(o.appVersion) then o.appVersion else c.appVersion)
    ensures r.enableLogging == o.enableLogging
    ensures r.emitIdentityEvents == (if o.emitIdentityEvents.Some? then o.emitIdentityEvents.value else c.emitIdentityEvents)
    ensures r.autoPageView == (if o.autoPageView.Some? then o.autoPageView.value else c.autoPageView)
    ensures r.autoRouteTracking == (if o.autoRouteTracking.Some? then o.autoRouteTracking.value else c.autoRouteTracking)
    ensures r.journeyMaxLen == (if o.journeyMaxLen.Some? then o.journeyMaxLen.value else c.journeyMaxLen)
    ensures r.batchSize == (if o.batchSize.Some? then o.batchSize.value else c.batchSize)
    ensures r.flushIntervalMs == (if o.flushIntervalMs.Some? then o.flushIntervalMs.value else c.flushIntervalMs)
    ensures build == SourceModule ==>
      r.flushOnRouteChange == c.flushOnRouteChange && r.enableAutoFlush == c.enableAutoFlush &&
      r.immediateEventTypes == c.immediateEventTypes
    ensures build == Bundle ==>
      r.flushOnRouteChange == (if o.flushOnRouteChange.Some? then o.flushOnRouteChange.value else c.flushOnRouteChange) &&
      r.enableAutoFlush == (if o.enableAutoFlush.Some? then o.enableAutoFlush.value else c.enableAutoFlush)
    ensures build == Bundle && o.immediateEventTypes.None? ==> r.immediateEventTypes == c.immediateEventTypes
    ensures build == Bundle && o.immediateEventTypes.Some? ==>
      r.immediateEventTypes.Keys == c.immediateEventTypes.Keys + o.immediateEventTypes.value.Keys &&
      (forall t :: t in o.immediateEventTypes.value ==> r.immediateEventTypes[t] == o.immediateEventTypes.value[t]) &&
      (forall t :: t in c.immediateEventTypes && t !in o.immediateEventTypes.value ==>
        r.immediateEventTypes[t] == c.immediateEventTypes[t])
  {
    c.(
      env := OrElse(o.endpoint.env, c.env),
      apiUrl := apiUrl,
      domainId := OrNull(o.domainId),
      channel := OrElse(o.channel, c.channel),
      sdkVersion := OrElse(o.sdkVersion, c.sdkVersion),
      appVersion := Or(o.appVersion, c.appVersion),
      enableLogging := o.enableLogging,
      emitIdentityEvents := BoolOr(o.emitIdentityEvents, c.emitIdentityEvents),
      autoPageView := BoolOr(o.autoPageView, c.autoPageView),
      autoRouteTracking := BoolOr(o.autoRouteTracking, c.autoRouteTracking),
      flushOnRouteChange := if build == Bundle then BoolOr(o.flushOnRouteChange, c.flushOnRouteChange) else c.flushOnRouteChange,
      journeyMaxLen := NatOr(o.journeyMaxLen, c.journeyMaxLen),
      batchSize := NatOr(o.batchSize, c.batchSize),
      flushIntervalMs := NatOr(o.flushIntervalMs, c.flushIntervalMs),
      enableAutoFlush := if build == Bundle then BoolOr(o.enableAutoFlush, c.enableAutoFlush) else c.enableAutoFlush,
      immediateEventTypes :=
        if build == Bundle && o.immediateEventTypes.Some?
        then MergeImmediateTypes(c.immediateEventTypes, o.immediateEventTypes.value)
        else c.immediateEventTypes)
  }

  /**
   * With the defaults of the bundle, the periodic flush stays off unless the
   * caller asks for it; the source module has no such switch and always
   * starts its timer.
   */
  lemma AutoFlushOffByDefault(o: BrowserOptions, apiUrl: string)
    ensures o.enableAutoFlush != Some(true) ==>
      !Configured(DefaultConfig(Bundle), o, Bundle, apiUrl).enableAutoFlush
    ensures !Configured(DefaultConfig(SourceModule), o, SourceModule, apiUrl).enableAutoFlush
    ensures DefaultConfig(Bundle).batchSize == 20 && DefaultConfig(Bundle).journeyMaxLen == 100
  {
  }

  /** What `window.location.pathname` gives the bundle's route handler. */
  datatype PathRead = Path(pathname: Option<string>) | PathThrows

  /**
   * The host as the SDK sees it: whether `window` and `window.history`
   * exist, `location.href` (None without a location), the pathname,
   * `document.referrer` and `navigator.userAgent` (None without a document or
   * navigator), and `document.cookie`.
   */
  datatype Host = Host(
    hasWindow: bool,
    hasHistory: bool,
    href: Option<string>,
    pathname: PathRead,
    referrer: Option<string>,
    userAgent: Option<string>,
    cookie: Option<string>)

  /** `url || (window && window.location ? window.location.href : "")`. */
  function PageUrl(url: Option<string>, host: Host): string {
    OrElse(url, if host.href.Some? then host.href.value else "")
  }

  /** `_baseEvent(eventType, url, payload)` with its `randomId("req")` and `nowIso()` given. */
  function BaseEvent(c: Config, ids: Ids, page: Option<string>, eventType: string, url: string, payload: Payload,
                     host: Host, requestId: string, now: string): Event
  {
    Event(c.domainId, ids, requestId, page, None, c.sdkVersion, c.appVersion, c.channel,
          eventType, url, OrNull(host.referrer), OrNull(host.userAgent), payload, now)
  }

  /**
   * An event carries the journey as it was before the event's own entry; the
   * journey afterwards is that snapshot extended by the entry, trimmed to the
   * window, and ends with the entry.
   */
  lemma EventCarriesPriorJourney(c: Config, ids: Ids, page: Option<string>, eventType: string, url: string,
                                 payload: Option<Payload>, host: Host, requestId: string, now: string,
                                 before: seq<Entry>)
    requires c.journeyMaxLen >= 1 && |before| <= c.journeyMaxLen
    ensures var ev := BaseEvent(c, ids, page, eventType, url, WithJourney(payload, before, c.journeyMaxLen), host, requestId, now);
      var after := Window(before + [EntryOf(ev)], c.journeyMaxLen);
      && ev.payload["journey"] == Trail(before)
      && after == Window(ev.payload["journey"].entries + [EntryOf(ev)], c.journeyMaxLen)
      && after[|after| - 1] == Entry(now, eventType, url)
      && |after| <= c.journeyMaxLen
  {
    SnapshotOfBoundedJourney(before, c.journeyMaxLen);
    var ev := BaseEvent(c, ids, page, eventType, url, WithJourney(payload, before, c.journeyMaxLen), host, requestId, now);
    WindowIsNewestSuffix(before + [EntryOf(ev)], c.journeyMaxLen);
  }

  datatype SdkError = NotInitialized | MissingEndpoint

  /** The options of `logout(options)`. */
  datatype LogoutOptions = LogoutOptions(
    resetSession: Option<bool>,
    rotateAnonymousId: Option<bool>,
    emitEvent: Option<bool>,
    url: Option<string>)

  /** The lifecycle signals the SDK listens to. */
  datatype Signal = PageHide | BeforeUnload | VisibilityChange(hidden: bool)

  /** The bundle's route handler starts a new page unless the path is missing, empty or "/". */
  predicate StartsNewPage(p: PathRead) {
    p.PathThrows? || (Truthy(p.pathname) && p.pathname.value != "/")
  }

  /** A JSON value that JavaScript treats as true. */
  predicate ValueTruthy(v: Value) {
    !v.Null? && v != Text("")
  }

  /**
   * `recommend`'s context: the caller's object (or a new one) whose `url` and
   * `referrer` fall back to the page URL and `document.referrer || null`,
   * and whose `journey` is the window of the journey.
   */
  function RecommendContext(ctx: Option<Payload>, pageUrl: string, referrer: Option<string>,
                            journey: seq<Entry>, maxLen: nat): (r: Payload)
    requires maxLen >= 1
    ensures "url" in r && "referrer" in r && "journey" in r
    ensures r["journey"] == Trail(Window(journey, maxLen))
    ensures var own := PayloadOrEmpty(ctx);
      && ("url" in own && ValueTruthy(own["url"]) ==> r["url"] == own["url"])
      && (!("url" in own && ValueTruthy(own["url"])) ==> r["url"] == Text(pageUrl))
      && ("referrer" in own && ValueTruthy(own["referrer"]) ==> r["referrer"] == own["referrer"])
      && (!("referrer" in own && ValueTruthy(own["referrer"])) ==> r["referrer"] == TextOrNull(OrNull(referrer)))
      && (forall k :: k in own && k !in {"url", "referrer", "journey"} ==> k in r && r[k] == own[k])
  {
    var own := PayloadOrEmpty(ctx);
    var url := if "url" in own && ValueTruthy(own["url"]) then own["url"] else Text(pageUrl);
    var ref := if "referrer" in own && ValueTruthy(own["referrer"]) then own["referrer"] else TextOrNull(OrNull(referrer));
    own["url" := url]["referrer" := ref]["journey" := Trail(Window(journey, maxLen))]
  }

  /**
   * One tracking call, from journey `before` and issued ids `issued`: `ev` is
   * the base event under configuration `c` and page `page`, carrying the
   * journey as it was, with a new request id; the journey `after` ends with
   * the event's entry.
   */
  predicate Tracked(ev: Event, c: Config, ids: Ids, page: Option<string>, eventType: string, url: string,
                    payload: Option<Payload>, host: Host, now: string,
                    before: seq<Entry>, after: seq<Entry>, issued: set<string>)
  {
    && c.journeyMaxLen >= 1
    && ev == BaseEvent(c, ids, page, eventType, url, WithJourney(payload, before, c.journeyMaxLen), host, ev.requestId, now)
    && ev.requestId !in issued && HasPrefix(ev.requestId, "req_")
    && after == Window(before + [EntryOf(ev)], c.journeyMaxLen)
  }

  /** Writing one key leaves every other key as it was. */
  lemma SetLeavesOtherKeys(st: Store, key: string, v: string)
    ensures forall k :: k != key ==> SafeGet(SafeSet(st, key, v), k) == SafeGet(st, k)
    ensures AnonymousIdKey != UserIdKey && AnonymousIdKey != DeviceIdKey && AnonymousIdKey != AppInstanceIdKey
    ensures DeviceIdKey != AppInstanceIdKey
  {
    assert AnonymousIdKey[14] != UserIdKey[14] && AnonymousIdKey[14] != DeviceIdKey[14];
    assert AnonymousIdKey[15] != AppInstanceIdKey[15] && DeviceIdKey[14] != AppInstanceIdKey[14];
  }

  /**
   * `localStorage` after `init`: the anonymous id always written back, the
   * device id only when it was generated, the app-instance id when truthy.
   */
  function InitLocal(st: Store, ids: Ids, deviceGenerated: bool): Store {
    var a := if ids.anonymousId.Some? then SafeSet(st, AnonymousIdKey, ids.anonymousId.value) else st;
    var b := if deviceGenerated && ids.deviceId.Some? then SafeSet(a, DeviceIdKey, ids.deviceId.value) else a;
    if Truthy(ids.appInstanceId) then SafeSet(b, AppInstanceIdKey, ids.appInstanceId.value) else b
  }

  /**
   * The identity slots `init` resolves, from the stores `local0` and
   * `session0` it found: each slot from its option, its store or a new
   * identifier (the anonymous, session and device ids), or null (the user,
   * client and app-instance ids); the stores written back.
   */
  predicate SlotsResolved(o: BrowserOptions, host: Host, local0: Store, session0: Store, issued0: set<string>,
                          ids: Ids, local: Store, session: Store)
  {
    && ResolvedOrFresh(ids.anonymousId, o.ids.anonymousId, SafeGet(local0, AnonymousIdKey), issued0, "anon")
    && ids.userId == OrNull(Or(o.ids.userId, SafeGet(local0, UserIdKey)))
    && ResolvedOrFresh(ids.sessionId, o.ids.sessionId, SafeGet(session0, SessionIdKey), issued0, "sess")
    && ids.clientId == OrNull(Or(o.ids.clientId, ParseGaClientIdFromCookie(host.cookie)))
    && ResolvedOrFresh(ids.deviceId, o.ids.deviceId, SafeGet(local0, DeviceIdKey), issued0, "dev")
    && ids.appInstanceId == OrNull(Or(o.ids.appInstanceId, SafeGet(local0, AppInstanceIdKey)))
    && ids.sessionId.Some?
    && local == InitLocal(local0, ids, !Truthy(Or(o.ids.deviceId, SafeGet(local0, DeviceIdKey))))
    && session == SafeSet(session0, SessionIdKey, ids.sessionId.value)
  }

  /**
   * The identity `logout` leaves behind, from `ids0`, `page0` and the stores it
   * found: the user id cleared in memory and in `localStorage`; the client,
   * device and app-instance ids kept; unless `resetSession` is false, a new
   * session id (written to `sessionStorage`) and a new page instance; a new
   * anonymous id (written to `localStorage`) only on request.
   */
  predicate LoggedOut(o: LogoutOptions, ids0: Ids, page0: Option<string>, local0: Store, session0: Store,
                      issued0: set<string>, ids: Ids, page: Option<string>, local: Store, session: Store)
  {
    && ids.userId == None
    && ids.clientId == ids0.clientId && ids.deviceId == ids0.deviceId && ids.appInstanceId == ids0.appInstanceId
    && (o.resetSession == Some(false) ==>
          ids.sessionId == ids0.sessionId && page == page0 && session == session0)
    && (o.resetSession != Some(false) ==>
          && ids.sessionId.Some? && HasPrefix(ids.sessionId.value, "sess_")
          && ids.sessionId.value !in issued0 && ids.sessionId != ids0.sessionId
          && page.Some? && HasPrefix(page.value, "page_")
          && page.value !in issued0 && page != page0
          && session == SafeSet(session0, SessionIdKey, ids.sessionId.value))
    && (!IsSet(o.rotateAnonymousId) ==>
          ids.anonymousId == ids0.anonymousId && local == Mirror(local0, UserIdKey, None))
    && (IsSet(o.rotateAnonymousId) ==>
          && ids.anonymousId.Some? && HasPrefix(ids.anonymousId.value, "anon_")
          && ids.anonymousId.value !in issued0 && ids.anonymousId != ids0.anonymousId
          && local == SafeSet(Mirror(local0, UserIdKey, None), AnonymousIdKey, ids.anonymousId.value))
  }

  class RecommendSdk {
    const build: Build
    var initialized: bool
    var config: Config
    /** The six identity slots of `config`. */
    var ids: Ids
    var journey: seq<Entry>
    var pageInstanceId: Option<string>
    /** `localStorage` and `sessionStorage`. */
    var local: Store
    var session: Store
    /** Whether the interval, the lifecycle listeners and the history hooks are installed. */
    var timerRunning: bool
    var lifecycleHooked: bool
    var routeHooked: bool
    const outbox: Outbox
    const oracle: IdOracle

    ghost predicate Valid()
      reads this, outbox
    {
      && outbox.Valid()
      && config.batchSize >= 1 && config.journeyMaxLen >= 1
      && |journey| <= config.journeyMaxLen
      && (!initialized ==> journey == [] && !routeHooked && !timerRunning && !lifecycleHooked)
    }

    /** The object as the module defines it, over the host's stores. */
    constructor (build: Build, local: Store, session: Store)
      ensures Valid() && this.build == build
      ensures !initialized && config == DefaultConfig(build) && ids == NoIds && journey == [] && pageInstanceId == None
      ensures this.local == local && this.session == session
      ensures fresh(outbox) && fresh(oracle) && outbox.queue == [] && oracle.issued == {}
    {
      this.build := build;
      initialized := false;
      config := DefaultConfig(build);
      ids := NoIds;
      journey := [];
      pageInstanceId := None;
      this.local := local;
      this.session := session;
      timerRunning, lifecycleHooked, routeHooked := false, false, false;
      outbox := new Outbox();
      oracle := new IdOracle();
    }

    function HeldIds(): set<string>
      reads this
    {
      Held(ids) + Present(pageInstanceId)
    }

    /** `_pushJourney(entry)`: append, then drop the oldest entries beyond `journeyMaxLen`. */
    method PushJourney(e: Entry)
      requires Valid() && initialized
      modifies this`journey
      ensures Valid()
      ensures journey == Window(old(journey) + [e], config.journeyMaxLen)
    {
      journey := journey + [e];
      if |journey| > config.journeyMaxLen {
        journey := journey[|journey| - config.journeyMaxLen..];
      }
    }

    /** `_baseEvent(eventType, url, _withJourney(payload))` followed by `_pushJourney`. */
    method Record(eventType: string, url: string, payload: Option<Payload>, host: Host, now: string)
      returns (ev: Event)
      requires Valid() && initialized
      modifies this`journey, oracle
      ensures Valid() && oracle.issued >= old(oracle.issued)
      ensures Tracked(ev, config, ids, pageInstanceId, eventType, url, payload, host, now, old(journey), journey, old(oracle.issued))
    {
      var p := WithJourney(payload, journey, config.journeyMaxLen);
      var requestId := oracle.RandomId("req", {});
      ev := BaseEvent(config, ids, pageInstanceId, eventType, url, p, host, requestId, now);
      PushJourney(EntryOf(ev));
    }

    /**
     * `trackPageView(url, payload, options)`: refused before `init`; the
     * bundle sends it directly when `options.immediate` is set, the source
     * module always queues it.
     */
    method TrackPageView(url: Option<string>, payload: Option<Payload>, immediate: bool, host: Host, now: string)
      returns (r: Result<Sent, SdkError>)
      requires Valid()
      modifies this`journey, outbox, oracle
      ensures Valid() && oracle.issued >= old(oracle.issued)
      ensures !old(initialized) ==>
        r == Err(NotInitialized) && journey == old(journey) && unchanged(outbox) && unchanged(oracle)
      ensures old(initialized) ==> r.Ok? && (r.value.Direct? <==> build == Bundle && immediate)
      ensures old(initialized) ==>
        Tracked(r.value.ev, config, ids, pageInstanceId, "page_view", PageUrl(url, host), payload, host, now, old(journey), journey, old(oracle.issued))
      ensures old(initialized) ==> Handed(r.value, config.batchSize, old(outbox.Ledger()), outbox.Ledger())
    {
      if !initialized {
        return Err(NotInitialized);
      }
      var ev := Record("page_view", PageUrl(url, host), payload, host, now);
      if build == Bundle && immediate {
        outbox.SendNow(ev);
        r := Ok(Direct(ev));
      } else {
        var d := outbox.Enqueue(ev, config.batchSize);
        r := Ok(Queued(ev, d));
      }
    }

    /**
     * `trackEvent(eventType, payload, options)`: refused before `init`; sent
     * directly exactly when `options.immediate` is set or the type is an
     * immediate type, queued otherwise. "Immediate type" is the own-key
     * reading `SendsImmediately`, not the property lookup as written, which
     * also sends inherited `Object.prototype` names such as "toString" at once.
     */
    method TrackEvent(eventType: Option<string>, payload: Option<Payload>, immediate: bool, url: Option<string>,
                      host: Host, now: string)
      returns (r: Result<Sent, SdkError>)
      requires Valid()
      modifies this`journey, outbox, oracle
      ensures Valid() && oracle.issued >= old(oracle.issued)
      ensures !old(initialized) ==>
        r == Err(NotInitialized) && journey == old(journey) && unchanged(outbox) && unchanged(oracle)
      ensures old(initialized) ==>
        r.Ok? && (r.value.Direct? <==> SendsImmediately(immediate, config.immediateEventTypes, EventTypeOr(eventType)))
      ensures old(initialized) ==>
        Tracked(r.value.ev, config, ids, pageInstanceId, EventTypeOr(eventType), PageUrl(url, host), payload, host, now, old(journey), journey, old(oracle.issued))
      ensures old(initialized) ==> Handed(r.value, config.batchSize, old(outbox.Ledger()), outbox.Ledger())
    {
      if !initialized {
        return Err(NotInitialized);
      }
      var ev := Record(EventTypeOr(eventType), PageUrl(url, host), payload, host, now);
      if SendsImmediately(immediate, config.immediateEventTypes, ev.eventType) {
        outbox.SendNow(ev);
        r := Ok(Direct(ev));
      } else {
        var d := outbox.Enqueue(ev, config.batchSize);
        r := Ok(Queued(ev, d));
      }
    }

    /** `trackAction(actionName, payload, options)`: an immediate "action" event naming the action. */
    method TrackAction(actionName: string, payload: Option<Payload>, url: Option<string>, host: Host, now: string)
      returns (r: Result<Sent, SdkError>)
      requires Valid()
      modifies this`journey, outbox, oracle
      ensures Valid() && oracle.issued >= old(oracle.issued)
      ensures !old(initialized) ==>
        r == Err(NotInitialized) && journey == old(journey) && unchanged(outbox) && unchanged(oracle)
      ensures old(initialized) ==> r.Ok? && r.value.Direct? && Handed(r.value, config.batchSize, old(outbox.Ledger()), outbox.Ledger())
      ensures old(initialized) ==>
        && Tracked(r.value.ev, config, ids, pageInstanceId, "action", PageUrl(url, host), Some(ActionPayload(actionName, payload)), host, now, old(journey), journey, old(oracle.issued))
        && r.value.ev.payload["actionName"] == Text(actionName)
    {
      r := TrackEvent(Some("action"), Some(ActionPayload(actionName, payload)), true, url, host, now);
    }

    /** `flush(options)` on this object's queue and batch size. */
    method Flush(useBeacon: bool, beacon: Beacon) returns (d: Dispatch)
      requires Valid()
      modifies outbox
      ensures Valid() && outbox.accepted == old(outbox.accepted)
      ensures old(outbox.queue) == [] ==> d == Idle && outbox.Ledger() == old(outbox.Ledger())
      ensures old(outbox.queue) != [] ==>
        !d.Idle? && d.events == Batch(old(outbox.queue), config.batchSize) &&
        outbox.queue == Remainder(old(outbox.queue), config.batchSize)
      ensures d.Beaconed? <==> old(outbox.queue) != [] && useBeacon && beacon == Accepted
      ensures d.Beaconed? ==>
        outbox.delivered == old(outbox.delivered) + multiset(d.events) && outbox.inFlight == old(outbox.inFlight)
      ensures d.Posted? ==>
        outbox.inFlight == old(outbox.inFlight) + multiset(d.events) && outbox.delivered == old(outbox.delivered)
    {
      d := outbox.Flush(config.batchSize, useBeacon, beacon);
    }

    // -------------------------------------------------------------------
    // Identity

    /** `setUserId(v)`: `v || null` in memory, mirrored to `localStorage`. */
    method SetUserId(v: Option<string>)
      requires Valid()
      modifies this`ids, this`local
      ensures Valid()
      ensures config == old(config) && ids == old(ids).(userId := OrNull(v))
      ensures local == Mirror(old(local), UserIdKey, v)
    {
      ids := ids.(userId := OrNull(v));
      local := Mirror(local, UserIdKey, v);
    }

    /** `setAnonymousId(v)`. */
    method SetAnonymousId(v: Option<string>)
      requires Valid()
      modifies this`ids, this`local
      ensures Valid()
      ensures config == old(config) && ids == old(ids).(anonymousId := OrNull(v))
      ensures local == Mirror(old(local), AnonymousIdKey, v)
    {
      ids := ids.(anonymousId := OrNull(v));
      local := Mirror(local, AnonymousIdKey, v);
    }

    /** `setSessionId(v)`: mirrored to `sessionStorage`. */
    method SetSessionId(v: Option<string>)
      requires Valid()
      modifies this`ids, this`session
      ensures Valid()
      ensures config == old(config) && ids == old(ids).(sessionId := OrNull(v))
      ensures session == Mirror(old(session), SessionIdKey, v)
    {
      ids := ids.(sessionId := OrNull(v));
      session := Mirror(session, SessionIdKey, v);
    }

    /** `setClientId(v)`: memory only. */
    method SetClientId(v: Option<string>)
      requires Valid()
      modifies this`ids
      ensures Valid()
      ensures config == old(config) && ids == old(ids).(clientId := OrNull(v))
    {
      ids := ids.(clientId := OrNull(v));
    }

    /** `setDeviceId(v)`. */
    method SetDeviceId(v: Option<string>)
      requires Valid()
      modifies this`ids, this`local
      ensures Valid()
      ensures config == old(config) && ids == old(ids).(deviceId := OrNull(v))
      ensures local == Mirror(old(local), DeviceIdKey, v)
    {
      ids := ids.(deviceId := OrNull(v));
      local := Mirror(local, DeviceIdKey, v);
    }

    /** `setAppInstanceId(v)`. */
    method SetAppInstanceId(v: Option<string>)
      requires Valid()
      modifies this`ids, this`local
      ensures Valid()
      ensures config == old(config) && ids == old(ids).(appInstanceId := OrNull(v))
      ensures local == Mirror(old(local), AppInstanceIdKey, v)
    {
      ids := ids.(appInstanceId := OrNull(v));
      local := Mirror(local, AppInstanceIdKey, v);
    }

    /** The setter calls of `identify`: one for each parameter that is not `undefined`. */
    method ApplyParams(p: IdentityParams)
      requires Valid()
      modifies this`ids, this`local, this`session
      ensures Valid()
      ensures config == old(config) && ids == ApplyIdentity(old(ids), p)
      ensures local == LocalAfterIdentify(old(local), p) && session == SessionAfterIdentify(old(session), p)
    {
      ApplyUserParams(p);
      ApplyDeviceParams(p);
    }

    /** The first three setter calls of `identify`: user, anonymous and session ids. */
    method ApplyUserParams(p: IdentityParams)
      requires Valid()
      modifies this`ids, this`local, this`session
      ensures Valid() && config == old(config)
      ensures ids == old(ids).(userId := Assign(p.userId, old(ids.userId)),
                               anonymousId := Assign(p.anonymousId, old(ids.anonymousId)),
                               sessionId := Assign(p.sessionId, old(ids.sessionId)))
      ensures local == MirrorParam(MirrorParam(old(local), UserIdKey, p.userId), AnonymousIdKey, p.anonymousId)
      ensures session == SessionAfterIdentify(old(session), p)
    {
      if p.userId.Given? { SetUserId(p.userId.value); }
      if p.anonymousId.Given? { SetAnonymousId(p.anonymousId.value); }
      if p.sessionId.Given? { SetSessionId(p.sessionId.value); }
    }

    /** The last three setter calls of `identify`: client, device and app-instance ids. */
    method ApplyDeviceParams(p: IdentityParams)
      requires Valid()
      modifies this`ids, this`local
      ensures Valid() && config == old(config)
      ensures ids == old(ids).(clientId := Assign(p.clientId, old(ids.clientId)),
                               deviceId := Assign(p.deviceId, old(ids.deviceId)),
                               appInstanceId := Assign(p.appInstanceId, old(ids.appInstanceId)))
      ensures local == MirrorParam(MirrorParam(old(local), DeviceIdKey, p.deviceId), AppInstanceIdKey, p.appInstanceId)
    {
      if p.clientId.Given? { SetClientId(p.clientId.value); }
      if p.deviceId.Given? { SetDeviceId(p.deviceId.value); }
      if p.appInstanceId.Given? { SetAppInstanceId(p.appInstanceId.value); }
    }

    /**
     * `identify(params, options)`: the defined parameters go through the
     * setters; then, when emission is on, one immediate "identify" event
     * carries the slots before and after. Before `init` the slots are already
     * updated when the emission is refused.
     */
    method Identify(p: IdentityParams, emitEvent: Option<bool>, url: Option<string>, host: Host, now: string)
      returns (r: Result<Option<Sent>, SdkError>)
      requires Valid()
      modifies this`ids, this`local, this`session, this`journey, outbox, oracle
      ensures Valid()
      ensures config == old(config) && ids == ApplyIdentity(old(ids), p)
      ensures local == LocalAfterIdentify(old(local), p) && session == SessionAfterIdentify(old(session), p)
      ensures !ShouldEmit(emitEvent, config.emitIdentityEvents) ==>
        r == Ok(None) && journey == old(journey) && unchanged(outbox) && unchanged(oracle)
      ensures ShouldEmit(emitEvent, config.emitIdentityEvents) && !initialized ==>
        r == Err(NotInitialized) && journey == old(journey) && unchanged(outbox) && unchanged(oracle)
      ensures ShouldEmit(emitEvent, config.emitIdentityEvents) && initialized ==>
        && r.Ok? && r.value.Some? && r.value.value.Direct? && Handed(r.value.value, config.batchSize, old(outbox.Ledger()), outbox.Ledger())
        && Tracked(r.value.value.ev, config, ids, pageInstanceId, "identify", PageUrl(url, host),
                   Some(IdentifyPayload(SnapshotOf(old(ids)), SnapshotOf(ids))), host, now,
                   old(journey), journey, old(oracle.issued))
    {
      var prev := SnapshotOf(ids);
      ApplyParams(p);
      if ShouldEmit(emitEvent, config.emitIdentityEvents) {
        var t := TrackEvent(Some("identify"), Some(IdentifyPayload(prev, SnapshotOf(ids))), true, url, host, now);
        r := if t.Ok? then Ok(Some(t.value)) else Err(t.error);
      } else {
        r := Ok(None);
      }
    }

    /**
     * `logout(options)`: the "logout" event goes first, with the user still
     * set; then the user id is cleared, the session and the page instance
     * are renewed unless `resetSession` is false, and the anonymous id is
     * renewed only on request. Before `init` an emitting logout is refused
     * and changes nothing.
     */
    method Logout(o: LogoutOptions, host: Host, now: string) returns (r: Result<Option<Sent>, SdkError>)
      requires Valid()
      modifies this`ids, this`local, this`session, this`journey, this`pageInstanceId, outbox, oracle
      ensures Valid()
      ensures ShouldEmit(o.emitEvent, old(config.emitIdentityEvents)) && !initialized ==>
        && r == Err(NotInitialized) && ids == old(ids) && local == old(local) && session == old(session)
        && journey == old(journey) && pageInstanceId == old(pageInstanceId) && unchanged(outbox) && unchanged(oracle)
      ensures ShouldEmit(o.emitEvent, old(config.emitIdentityEvents)) && initialized ==>
        && r.Ok? && r.value.Some? && r.value.value.Direct? && Handed(r.value.value, config.batchSize, old(outbox.Ledger()), outbox.Ledger())
        && Tracked(r.value.value.ev, old(config), old(ids), old(pageInstanceId), "logout", PageUrl(o.url, host),
                   Some(LogoutPayload(old(ids))), host, now,
                   old(journey), journey, old(oracle.issued))
      ensures !ShouldEmit(o.emitEvent, old(config.emitIdentityEvents)) ==>
        r == Ok(None) && journey == old(journey) && unchanged(outbox)
      ensures r.Ok? ==> config == old(config)
      ensures r.Ok? ==>
        LoggedOut(o, old(ids), old(pageInstanceId), old(local), old(session), old(oracle.issued), ids, pageInstanceId, local, session)
    {
      if ShouldEmit(o.emitEvent, config.emitIdentityEvents) {
        var t := TrackEvent(Some("logout"), Some(LogoutPayload(ids)), true, o.url, host, now);
        if t.Err? {
          return Err(t.error);
        }
        r := Ok(Some(t.value));
      } else {
        r := Ok(None);
      }
      ClearIdentity(o);
    }

    /** The identity half of `logout`, after the event. */
    method ClearIdentity(o: LogoutOptions)
      requires Valid()
      modifies this`ids, this`local, this`session, this`pageInstanceId, oracle
      ensures Valid() && config == old(config) && oracle.issued >= old(oracle.issued)
      ensures LoggedOut(o, old(ids), old(pageInstanceId), old(local), old(session), old(oracle.issued), ids, pageInstanceId, local, session)
    {
      SetUserId(None);
      if o.resetSession != Some(false) {
        RenewSession();
      }
      if IsSet(o.rotateAnonymousId) {
        RotateAnonymousId();
      }
    }

    /** `setSessionId(randomId("sess"))` and a new page instance, as `logout` does when resetting the session. */
    method RenewSession()
      requires Valid()
      modifies this`ids, this`session, this`pageInstanceId, oracle
      ensures Valid() && config == old(config) && oracle.issued >= old(oracle.issued)
      ensures ids == old(ids).(sessionId := ids.sessionId)
      ensures ids.sessionId.Some? && HasPrefix(ids.sessionId.value, "sess_")
      ensures ids.sessionId.value !in old(oracle.issued) && ids.sessionId != old(ids.sessionId)
      ensures session == SafeSet(old(session), SessionIdKey, ids.sessionId.value)
      ensures pageInstanceId.Some? && HasPrefix(pageInstanceId.value, "page_")
      ensures pageInstanceId.value !in old(oracle.issued) && pageInstanceId != old(pageInstanceId)
    {
      var s := oracle.RandomId("sess", HeldIds());
      SetSessionId(Some(s));
      NewPageId();
    }

    /** `setAnonymousId(randomId("anon"))`, as `logout` does when asked to rotate it. */
    method RotateAnonymousId()
      requires Valid()
      modifies this`ids, this`local, oracle
      ensures Valid() && config == old(config) && oracle.issued >= old(oracle.issued)
      ensures ids == old(ids).(anonymousId := ids.anonymousId)
      ensures ids.anonymousId.Some? && HasPrefix(ids.anonymousId.value, "anon_")
      ensures ids.anonymousId.value !in old(oracle.issued) && ids.anonymousId != old(ids.anonymousId)
      ensures local == SafeSet(old(local), AnonymousIdKey, ids.anonymousId.value)
    {
      var a := oracle.RandomId("anon", HeldIds());
      SetAnonymousId(Some(a));
    }

    // -------------------------------------------------------------------
    // init

    /**
     * What both branches of `init` end with: the object is initialized, the
     * timer (gated by `enableAutoFlush` in the bundle), the lifecycle
     * listeners (with a window) and the history hooks (when route tracking is
     * on and the host has a history) are in place, and with `autoPageView` a
     * first page view is tracked.
     */
    ghost predicate Started(r: Result<Option<Sent>, SdkError>, host: Host, now: string,
                            journey0: seq<Entry>, books0: Books, issued0: set<string>)
      reads this, outbox
    {
      && initialized
      && timerRunning == (build == SourceModule || config.enableAutoFlush)
      && lifecycleHooked == host.hasWindow
      && routeHooked == (config.autoRouteTracking && host.hasWindow && host.hasHistory)
      && r.Ok?
      && (!config.autoPageView ==>
            r.value == None && journey == journey0 && outbox.Ledger() == books0)
      && (config.autoPageView ==>
            && r.value.Some? && (r.value.value.Direct? <==> build == Bundle)
            && Tracked(r.value.value.ev, config, ids, pageInstanceId, "page_view", PageUrl(None, host), None, host, now, journey0, journey, issued0)
            && Handed(r.value.value, config.batchSize, books0, outbox.Ledger()))
    }

    /** The tail of `init`: mark initialized, install the timer, listeners and hooks, then the first page view. */
    method Start(host: Host, now: string) returns (r: Result<Option<Sent>, SdkError>)
      requires Valid() && !initialized
      modifies this`initialized, this`timerRunning, this`lifecycleHooked, this`routeHooked, this`journey, outbox, oracle
      ensures Valid()
      ensures Started(r, host, now, old(journey), old(outbox.Ledger()), old(oracle.issued))
    {
      initialized := true;
      timerRunning := build == SourceModule || config.enableAutoFlush;
      lifecycleHooked := host.hasWindow;
      if config.autoRouteTracking && !routeHooked && host.hasWindow && host.hasHistory {
        routeHooked := true;
      }
      if config.autoPageView {
        var t := TrackPageView(None, None, true, host, now);
        r := Ok(Some(t.value));
      } else {
        r := Ok(None);
      }
    }

    /**
     * The slot resolution of `init`, in the source's order: each slot from the
     * option, the store or a new identifier, with the writes to the stores
     * made as it goes. Returns the slots and the two stores afterwards.
     */
    method ResolveSlots(o: BrowserOptions, host: Host) returns (r: Ids, newLocal: Store, newSession: Store)
      modifies oracle
      ensures oracle.issued >= old(oracle.issued)
      ensures SlotsResolved(o, host, local, session, old(oracle.issued), r, newLocal, newSession)
    {
      var anon := oracle.ResolveOrIssue(o.ids.anonymousId, SafeGet(local, AnonymousIdKey), "anon", HeldIds());
      newLocal := SafeSet(local, AnonymousIdKey, anon.value);
      SetLeavesOtherKeys(local, AnonymousIdKey, anon.value);
      var userId := OrNull(Or(o.ids.userId, SafeGet(newLocal, UserIdKey)));
      var sessionId := oracle.ResolveOrIssue(o.ids.sessionId, SafeGet(session, SessionIdKey), "sess", HeldIds());
      newSession := SafeSet(session, SessionIdKey, sessionId.value);
      var clientId := OrNull(Or(o.ids.clientId, ParseGaClientIdFromCookie(host.cookie)));
      var generated := !Truthy(Or(o.ids.deviceId, SafeGet(newLocal, DeviceIdKey)));
      var deviceId := oracle.ResolveOrIssue(o.ids.deviceId, SafeGet(newLocal, DeviceIdKey), "dev", HeldIds());
      var afterAnon := newLocal;
      if generated {
        newLocal := SafeSet(newLocal, DeviceIdKey, deviceId.value);
        SetLeavesOtherKeys(afterAnon, DeviceIdKey, deviceId.value);
      }
      var appInstanceId := OrNull(Or(o.ids.appInstanceId, SafeGet(newLocal, AppInstanceIdKey)));
      r := Ids(anon, userId, sessionId, clientId, deviceId, appInstanceId);
      if Truthy(appInstanceId) {
        newLocal := SafeSet(newLocal, AppInstanceIdKey, appInstanceId.value);
      }
    }

    /** The identity half of `init`: every slot resolved, the stores written back, a new page instance. */
    method ResolveIds(o: BrowserOptions, host: Host)
      requires Valid()
      modifies this`ids, this`local, this`session, this`pageInstanceId, oracle
      ensures Valid() && oracle.issued >= old(oracle.issued)
      ensures SlotsResolved(o, host, old(local), old(session), old(oracle.issued), ids, local, session)
      ensures pageInstanceId.Some? && pageInstanceId.value !in old(oracle.issued) && HasPrefix(pageInstanceId.value, "page_")
    {
      var r, newLocal, newSession := ResolveSlots(o, host);
      ids, local, session := r, newLocal, newSession;
      NewPageId();
    }

    /** A fresh page instance id, drawn from the host's random source. */
    method NewPageId()
      modifies this`pageInstanceId, oracle
      ensures oracle.issued >= old(oracle.issued)
      ensures pageInstanceId.Some? && pageInstanceId.value !in old(oracle.issued) && HasPrefix(pageInstanceId.value, "page_")
      ensures pageInstanceId != old(pageInstanceId)
    {
      var page := oracle.RandomId("page", HeldIds());
      pageInstanceId := Some(page);
    }

    /**
     * The main branch of `init`: the options applied over the configuration,
     * every identity slot resolved, a new page instance, and the start.
     */
    method Setup(o: BrowserOptions, host: Host, now: string, apiUrl: string) returns (r: Result<Option<Sent>, SdkError>)
      requires Valid() && !initialized
      requires o.journeyMaxLen.Some? ==> o.journeyMaxLen.value >= 1
      requires o.batchSize.Some? ==> o.batchSize.value >= 1
      modifies this`initialized, this`config, this`ids, this`local, this`session, this`pageInstanceId, this`journey,
               this`timerRunning, this`lifecycleHooked, this`routeHooked, outbox, oracle
      ensures Valid()
      ensures config == Configured(old(config), o, build, apiUrl)
      ensures SlotsResolved(o, host, old(local), old(session), old(oracle.issued), ids, local, session)
      ensures pageInstanceId.Some? && pageInstanceId.value !in old(oracle.issued) && HasPrefix(pageInstanceId.value, "page_")
      ensures Started(r, host, now, old(journey), old(outbox.Ledger()), old(oracle.issued))
    {
      Configure(o, host, apiUrl);
      ghost var issuedMid := oracle.issued;
      r := Start(host, now);
      StartedForEarlierIssued(r, host, now, old(journey), old(outbox.Ledger()), issuedMid, old(oracle.issued));
    }

    /** The part of `init` before the start: the merged configuration, then every identity slot. */
    method Configure(o: BrowserOptions, host: Host, apiUrl: string)
      requires Valid() && !initialized
      requires o.journeyMaxLen.Some? ==> o.journeyMaxLen.value >= 1
      requires o.batchSize.Some? ==> o.batchSize.value >= 1
      modifies this`config, this`ids, this`local, this`session, this`pageInstanceId, oracle
      ensures Valid() && oracle.issued >= old(oracle.issued)
      ensures config == Configured(old(config), o, build, apiUrl)
      ensures SlotsResolved(o, host, old(local), old(session), old(oracle.issued), ids, local, session)
      ensures pageInstanceId.Some? && pageInstanceId.value !in old(oracle.issued) && HasPrefix(pageInstanceId.value, "page_")
    {
      config := Configured(config, o, build, apiUrl);
      ResolveIds(o, host);
    }

    /** A start tracked against the identifiers issued later is also new against the earlier ones. */
    lemma StartedForEarlierIssued(r: Result<Option<Sent>, SdkError>, host: Host, now: string,
                                  journey0: seq<Entry>, books0: Books, issued1: set<string>, issued0: set<string>)
      requires Started(r, host, now, journey0, books0, issued1) && issued0 <= issued1
      ensures Started(r, host, now, journey0, books0, issued0)
    {
    }

    /**
     * `init(options)`: nothing on a second call; in the bundle, an `apiUrl`
     * already present in the configuration keeps the whole configuration and
     * only starts the object; otherwise the endpoint must resolve, the options
     * are applied, every identity slot is resolved, and the object starts.
     */
    method Init(o: BrowserOptions, host: Host, now: string) returns (r: Result<Option<Sent>, SdkError>)
      requires Valid()
      requires o.journeyMaxLen.Some? ==> o.journeyMaxLen.value >= 1
      requires o.batchSize.Some? ==> o.batchSize.value >= 1
      modifies this`initialized, this`config, this`ids, this`local, this`session, this`pageInstanceId, this`journey,
               this`timerRunning, this`lifecycleHooked, this`routeHooked, outbox, oracle
      ensures Valid()
      ensures old(initialized) ==> r == Ok(None) && unchanged(this) && unchanged(outbox) && unchanged(oracle)
      ensures !old(initialized) && build == Bundle && old(config.apiUrl) != "" ==>
        && config == old(config) && ids == old(ids) && local == old(local) && session == old(session)
        && pageInstanceId == old(pageInstanceId) && Started(r, host, now, old(journey), old(outbox.Ledger()), old(oracle.issued))
      ensures !old(initialized) && !(build == Bundle && old(config.apiUrl) != "") &&
              ResolveApiUrl(Some(o.endpoint), DefaultApiUrls(build)) == "" ==>
        r == Err(MissingEndpoint) && unchanged(this) && unchanged(outbox) && unchanged(oracle)
      ensures !old(initialized) && !(build == Bundle && old(config.apiUrl) != "") &&
              ResolveApiUrl(Some(o.endpoint), DefaultApiUrls(build)) != "" ==>
        && config == Configured(old(config), o, build, ResolveApiUrl(Some(o.endpoint), DefaultApiUrls(build)))
        && SlotsResolved(o, host, old(local), old(session), old(oracle.issued), ids, local, session)
        && pageInstanceId.Some? && pageInstanceId.value !in old(oracle.issued) && HasPrefix(pageInstanceId.value, "page_")
        && Started(r, host, now, old(journey), old(outbox.Ledger()), old(oracle.issued))
    {
      if initialized {
        return Ok(None);
      }
      if build == Bundle && config.apiUrl != "" {
        r := Start(host, now);
        return;
      }
      var apiUrl := ResolveApiUrl(Some(o.endpoint), DefaultApiUrls(build));
      if apiUrl == "" {
        return Err(MissingEndpoint);
      }
      r := Setup(o, host, now, apiUrl);
    }

    // -------------------------------------------------------------------
    // What the installed listeners do

    /**
     * The route handler installed by `_hookRoutes`, run after `pushState`,
     * `replaceState` and `popstate`. The source module always starts a new
     * page and queues a page view. The bundle first flushes a non-empty queue
     * when `flushOnRouteChange` is set, then starts a new page and sends a
     * page view directly only when the path is set and is not "/" (or cannot
     * be read).
     */
    method OnRouteChange(host: Host, now: string)
      returns (flushed: Dispatch, r: Option<Result<Sent, SdkError>>, ghost afterFlush: Books)
      requires Valid()
      modifies this`journey, this`pageInstanceId, outbox, oracle
      ensures Valid()
      ensures !routeHooked ==>
        flushed == Idle && r == None && journey == old(journey) && pageInstanceId == old(pageInstanceId) &&
        unchanged(outbox) && unchanged(oracle)
      ensures routeHooked && build == SourceModule ==> flushed == Idle
      ensures routeHooked && build == Bundle ==>
        && (flushed != Idle <==> config.flushOnRouteChange && old(outbox.queue) != [])
        && (flushed != Idle ==> flushed.events == Batch(old(outbox.queue), config.batchSize))
      ensures routeHooked && (build == SourceModule || StartsNewPage(host.pathname)) ==>
        && r.Some? && r.value.Ok? && (r.value.value.Direct? <==> build == Bundle)
        && pageInstanceId.Some? && pageInstanceId != old(pageInstanceId)
        && pageInstanceId.value !in old(oracle.issued) && HasPrefix(pageInstanceId.value, "page_")
        && Tracked(r.value.value.ev, config, ids, pageInstanceId, "page_view", PageUrl(None, host), None, host, now, old(journey), journey, old(oracle.issued))
      ensures routeHooked && build == Bundle && !StartsNewPage(host.pathname) ==>
        r == None && journey == old(journey) && pageInstanceId == old(pageInstanceId)
      ensures routeHooked && build == Bundle ==>
        outbox.queue == if flushed == Idle then old(outbox.queue) else Remainder(old(outbox.queue), config.batchSize)
      // The books after the optional flush: the page view is handed over from there.
      ensures flushed == Idle ==> afterFlush == old(outbox.Ledger())
      ensures flushed != Idle ==> FlushedBy(flushed, config.batchSize, old(outbox.Ledger()), afterFlush)
      ensures routeHooked && (build == SourceModule || StartsNewPage(host.pathname)) ==>
        Handed(r.value.value, config.batchSize, afterFlush, outbox.Ledger())
      ensures r == None ==> outbox.Ledger() == afterFlush
    {
      flushed := Idle;
      r := None;
      afterFlush := outbox.Ledger();
      if !routeHooked {
        return;
      }
      if build == Bundle && config.flushOnRouteChange && outbox.queue != [] {
        flushed := outbox.Flush(config.batchSize, false, NoBeacon);
        afterFlush := outbox.Ledger();
      }
      if build == SourceModule || StartsNewPage(host.pathname) {
        var t := NewPage(host, now);
        r := Some(t);
      }
    }

    /** `_pageInstanceId = randomId("page")` followed by `trackPageView(null, null, { immediate: true })`. */
    method NewPage(host: Host, now: string) returns (r: Result<Sent, SdkError>)
      requires Valid() && initialized
      modifies this`journey, this`pageInstanceId, outbox, oracle
      ensures Valid()
      ensures r.Ok? && (r.value.Direct? <==> build == Bundle)
      ensures pageInstanceId.Some? && pageInstanceId != old(pageInstanceId)
      ensures pageInstanceId.value !in old(oracle.issued) && HasPrefix(pageInstanceId.value, "page_")
      ensures Tracked(r.value.ev, config, ids, pageInstanceId, "page_view", PageUrl(None, host), None, host, now, old(journey), journey, old(oracle.issued))
      ensures Handed(r.value, config.batchSize, old(outbox.Ledger()), outbox.Ledger())
    {
      NewPageId();
      r := TrackPageView(None, None, true, host, now);
    }

    /** The interval callback: a plain `flush()` while the timer is installed. */
    method OnTimerTick() returns (d: Dispatch)
      requires Valid()
      modifies outbox
      ensures Valid() && outbox.accepted == old(outbox.accepted)
      ensures !timerRunning ==> d == Idle && outbox.Ledger() == old(outbox.Ledger())
      ensures timerRunning && old(outbox.queue) != [] ==>
        d.Posted? && d.events == Batch(old(outbox.queue), config.batchSize) &&
        outbox.queue == Remainder(old(outbox.queue), config.batchSize)
      ensures old(outbox.queue) == [] ==> d == Idle && outbox.Ledger() == old(outbox.Ledger())
    {
      d := Idle;
      if timerRunning {
        d := outbox.Flush(config.batchSize, false, NoBeacon);
      }
    }

    /**
     * `flushOnHide`: on `pagehide`, `beforeunload`, or a `visibilitychange`
     * to hidden, a flush that tries the beacon first.
     */
    method OnLifecycle(s: Signal, beacon: Beacon) returns (d: Dispatch)
      requires Valid()
      modifies outbox
      ensures Valid() && outbox.accepted == old(outbox.accepted)
      ensures !lifecycleHooked || s == VisibilityChange(false) ==> d == Idle && unchanged(outbox)
      ensures lifecycleHooked && s != VisibilityChange(false) && old(outbox.queue) != [] ==>
        && !d.Idle? && d.events == Batch(old(outbox.queue), config.batchSize)
        && outbox.queue == Remainder(old(outbox.queue), config.batchSize)
        && (d.Beaconed? <==> beacon == Accepted)
      ensures old(outbox.queue) == [] ==> d == Idle && outbox.Ledger() == old(outbox.Ledger())
      ensures d.Beaconed? ==>
        outbox.delivered == old(outbox.delivered) + multiset(d.events) && outbox.inFlight == old(outbox.inFlight)
      ensures d.Posted? ==>
        outbox.inFlight == old(outbox.inFlight) + multiset(d.events) && outbox.delivered == old(outbox.delivered)
    {
      d := Idle;
      if lifecycleHooked && s != VisibilityChange(false) {
        d := outbox.Flush(config.batchSize, true, beacon);
      }
    }

    /**
     * `recommend(params)` up to the request it posts: refused before `init`;
     * identity fields by the `!== undefined` rule, the channel by `||`, and
     * the context completed with the page URL, the referrer and the journey.
     */
    function Recommend(p: RecommendParams, host: Host): (r: Result<RecommendRequest, SdkError>)
      reads this
      requires config.journeyMaxLen >= 1
      ensures r.Ok? <==> initialized
      ensures r.Ok? ==> r.value.context == Some(RecommendContext(p.context, PageUrl(p.url, host), host.referrer, journey, config.journeyMaxLen))
      ensures r.Ok? && |journey| <= config.journeyMaxLen ==> r.value.context.value["journey"] == Trail(journey)
      ensures r.Ok? ==> r.value == RecommendBody(p, config.domainId, ids, config.channel, r.value.context)
      ensures r.Ok? && p.userId.Given? ==> r.value.userId == p.userId.value
      ensures r.Ok? && p.userId.Undefined? ==> r.value.userId == ids.userId
      ensures r.Ok? && p.anonymousId.Given? ==> r.value.anonymousId == p.anonymousId.value
      ensures r.Ok? && p.anonymousId.Undefined? ==> r.value.anonymousId == ids.anonymousId
    {
      if !initialized then Err(NotInitialized)
      else
        var context := RecommendContext(p.context, PageUrl(p.url, host), host.referrer, journey, config.journeyMaxLen);
        Ok(RecommendBody(p, config.domainId, ids, config.channel, Some(context)))
    }
  }
}
