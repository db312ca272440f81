/**
 * The Node `RecommendSDKNode` object (src/node/recommend-sdk-node.cjs and its
 * build dist/node/recommend-sdk-node.js, which behave alike).
 *
 * Compared with the browser object it has no storage, no journey, no page
 * instance and no host: identity lives in memory only, `init` keeps the
 * slots an earlier `identify` set, and every tracking call takes an options
 * object whose fields may override the event's identity, page and timing
 * fields. `randomId` is the `IdOracle`; `nowIso()` is the `now` argument.
 */
module NodeSdk {
  import opened JsValues
  import opened Endpoint
  import opened Identity
  import opened Events
  import opened Delivery
  import opened FreshIds

  const SdkVersion := "1.1.0"

  /** `RecommendSDKNode.config` without the identity slots, which are the `ids` field. */
  datatype NodeConfig = NodeConfig(
    env: string,
    apiUrl: string,
    domainId: Option<string>,
    channel: string,
    sdkVersion: string,
    appVersion: Option<string>,
    enableLogging: bool,
    emitIdentityEvents: bool,
    batchSize: nat,
    flushIntervalMs: nat,
    immediateEventTypes: map<string, bool>)

  /** The configuration object literal of the constructor. */
  const DefaultNodeConfig := NodeConfig(
    env := "production", apiUrl := "", domainId := None, channel := "web",
    sdkVersion := SdkVersion, appVersion := None, enableLogging := false,
    emitIdentityEvents := true, batchSize := 50, flushIntervalMs := 10000,
    immediateEventTypes := ActionOnly)

  /** The options object given to `init`; a missing option is None. */
  datatype NodeOptions = NodeOptions(
    endpoint: EndpointOptions,
    domainId: Option<string>,
    channel: Option<string>,
    sdkVersion: Option<string>,
    appVersion: Option<string>,
    enableLogging: bool,
    emitIdentityEvents: Option<bool>,
    batchSize: Option<nat>,
    flushIntervalMs: Option<nat>,
    ids: Ids)

  /** The non-identity part of `init`'s option handling: strings by `||`, booleans and numbers only when given. */
  function NodeConfigured(c: NodeConfig, o: NodeOptions, apiUrl: string): (r: NodeConfig)
    ensures r.apiUrl == apiUrl && r.domainId == OrNull(o.domainId)
    ensures r.env == OrElse(o.endpoint.env, c.env) && r.channel == OrElse(o.channel, c.channel)
    ensures r.appVersion == Or(o.appVersion, c.appVersion)
    ensures r.sdkVersion == (if Truthy(o.sdkVersion) then o.sdkVersion.value else c.sdkVersion)
    ensures r.enableLogging == o.enableLogging
    ensures r.flushIntervalMs == (if o.flushIntervalMs.Some? then o.flushIntervalMs.value else c.flushIntervalMs)
    ensures r.batchSize == (if o.batchSize.Some? then o.batchSize.value else c.batchSize)
    ensures r.emitIdentityEvents == (if o.emitIdentityEvents.Some? then o.emitIdentityEvents.value else c.emitIdentityEvents)
    ensures r.immediateEventTypes == c.immediateEventTypes
  {
    c.(
      env := OrElse(o.endpoint.env, c.env),
      apiUrl := apiUrl,
      domainId := OrNull(o.domainId),
      channel := OrElse(o.channel, c.channel),
      sdkVersion := OrElse(o.sdkVersion, c.sdkVersion),
      appVersion := Or(o.appVersion, c.appVersion),
      enableLogging := o.enableLogging,
      emitIdentityEvents := BoolOr(o.emitIdentityEvents, c.emitIdentityEvents),
      batchSize := NatOr(o.batchSize, c.batchSize),
      flushIntervalMs := NatOr(o.flushIntervalMs, c.flushIntervalMs))
  }

  /**
   * The options object of `trackEvent(eventType, payload, options)`, which
   * `_baseEvent` also reads: identity overrides count when not `undefined`
   * (a given null clears the field), the other fields only when truthy.
   */
  datatype TrackOptions = TrackOptions(
    immediate: bool,
    url: Option<string>,
    domainId: Param,
    anonymousId: Param,
    userId: Param,
    sessionId: Param,
    clientId: Param,
    deviceId: Param,
    appInstanceId: Param,
    pageInstanceId: Option<string>,
    canonicalPageKey: Option<string>,
    channel: Option<string>,
    referrer: Option<string>,
    userAgent: Option<string>,
    timestamp: Option<string>)

  const NoTrackOptions := TrackOptions(false, None, Undefined, Undefined, Undefined, Undefined, Undefined,
                                       Undefined, Undefined, None, None, None, None, None, None)

  /**
   * `_baseEvent(eventType, url, payload, options)` with its `randomId("req")`
   * and `nowIso()` given: each identity field from the option when it is not
   * `undefined` and from the configuration otherwise; page, referrer and user
   * agent from the options or null; channel and timestamp from the options
   * when truthy.
   */
  function NodeBaseEvent(c: NodeConfig, ids: Ids, eventType: string, url: string, payload: Option<Payload>,
                         opts: TrackOptions, requestId: string, now: string): (ev: Event)
    ensures opts.domainId.Given? ==> ev.domainId == opts.domainId.value
    ensures opts.domainId.Undefined? ==> ev.domainId == c.domainId
    ensures opts.userId.Given? ==> ev.ids.userId == opts.userId.value
    ensures opts.userId.Undefined? ==> ev.ids.userId == ids.userId
    ensures opts.anonymousId.Given? ==> ev.ids.anonymousId == opts.anonymousId.value
    ensures opts.anonymousId.Undefined? ==> ev.ids.anonymousId == ids.anonymousId
    ensures opts.sessionId.Given? ==> ev.ids.sessionId == opts.sessionId.value
    ensures opts.sessionId.Undefined? ==> ev.ids.sessionId == ids.sessionId
    ensures opts.clientId.Given? ==> ev.ids.clientId == opts.clientId.value
    ensures opts.clientId.Undefined? ==> ev.ids.clientId == ids.clientId
    ensures opts.deviceId.Given? ==> ev.ids.deviceId == opts.deviceId.value
    ensures opts.deviceId.Undefined? ==> ev.ids.deviceId == ids.deviceId
    ensures opts.appInstanceId.Given? ==> ev.ids.appInstanceId == opts.appInstanceId.value
    ensures opts.appInstanceId.Undefined? ==> ev.ids.appInstanceId == ids.appInstanceId
    ensures ev.pageInstanceId == (if Truthy(opts.pageInstanceId) then opts.pageInstanceId else None)
    ensures ev.canonicalPageKey == (if Truthy(opts.canonicalPageKey) then opts.canonicalPageKey else None)
    ensures ev.referrer == (if Truthy(opts.referrer) then opts.referrer else None)
    ensures ev.userAgent == (if Truthy(opts.userAgent) then opts.userAgent else None)
    ensures ev.appVersion == c.appVersion
    ensures ev.channel == (if Truthy(opts.channel) then opts.channel.value else c.channel)
    ensures ev.timestamp == (if Truthy(opts.timestamp) then opts.timestamp.value else now)
    ensures ev.eventType == eventType && ev.url == url && ev.requestId == requestId
    ensures ev.payload == PayloadOrEmpty(payload) && ev.sdkVersion == c.sdkVersion
  {
    Event(
      domainId := Override(opts.domainId, c.domainId),
      ids := Ids(
        anonymousId := Override(opts.anonymousId, ids.anonymousId),
        userId := Override(opts.userId, ids.userId),
        sessionId := Override(opts.sessionId, ids.sessionId),
        clientId := Override(opts.clientId, ids.clientId),
        deviceId := Override(opts.deviceId, ids.deviceId),
        appInstanceId := Override(opts.appInstanceId, ids.appInstanceId)),
      requestId := requestId,
      pageInstanceId := OrNull(opts.pageInstanceId),
      canonicalPageKey := OrNull(opts.canonicalPageKey),
      sdkVersion := c.sdkVersion,
      appVersion := c.appVersion,
      channel := OrElse(opts.channel, c.channel),
      eventType := eventType,
      url := url,
      referrer := OrNull(opts.referrer),
      userAgent := OrNull(opts.userAgent),
      payload := PayloadOrEmpty(payload),
      timestamp := OrElse(opts.timestamp, now))
  }

  /** Without overrides the event carries exactly the configured identity. */
  lemma PlainOptionsCarryConfiguredIds(c: NodeConfig, ids: Ids, eventType: string, url: string,
                                       payload: Option<Payload>, requestId: string, now: string)
    ensures NodeBaseEvent(c, ids, eventType, url, payload, NoTrackOptions, requestId, now).ids == ids
    ensures NodeBaseEvent(c, ids, eventType, url, payload, NoTrackOptions, requestId, now).domainId == c.domainId
    ensures NodeBaseEvent(c, ids, eventType, url, payload, NoTrackOptions, requestId, now).timestamp == now
  {
  }

  /**
   * The options `identify` and `logout` hand to `trackEvent`: the caller's
   * options with `immediate` forced on and `url` defaulted to "".
   */
  function IdentityEventOptions(opts: TrackOptions): (r: TrackOptions)
    ensures r.immediate && r.url == Some(OrElse(opts.url, ""))
    ensures r.(immediate := opts.immediate, url := opts.url) == opts
  {
    opts.(immediate := true, url := Some(OrElse(opts.url, "")))
  }

  /** The tracked event, from configuration `c` and slots `ids`, with a new request id. */
  predicate NodeTracked(ev: Event, c: NodeConfig, ids: Ids, eventType: string, payload: Option<Payload>,
                        opts: TrackOptions, now: string, issued: set<string>)
  {
    && ev == NodeBaseEvent(c, ids, eventType, OrElse(opts.url, ""), payload, opts, ev.requestId, now)
    && ev.requestId !in issued && HasPrefix(ev.requestId, "req_")
  }

  datatype NodeError = NotInitialized | MissingEndpoint

  /** The options of `logout(options)`; all of them also reach `trackEvent`. */
  datatype NodeLogoutOptions = NodeLogoutOptions(
    resetSession: Option<bool>,
    rotateAnonymousId: Option<bool>,
    emitEvent: Option<bool>,
    event: TrackOptions)

  /** `recommend(params)` up to the request it posts: the context only when it is an object. */
  function NodeRecommendBody(p: RecommendParams, c: NodeConfig, ids: Ids): (r: RecommendRequest)
    ensures r.context == p.context
    ensures p.domainId.Given? ==> r.domainId == p.domainId.value
    ensures p.domainId.Undefined? ==> r.domainId == c.domainId
    ensures p.userId.Given? ==> r.userId == p.userId.value
    ensures p.userId.Undefined? ==> r.userId == ids.userId
    ensures p.anonymousId.Given? ==> r.anonymousId == p.anonymousId.value
    ensures p.anonymousId.Undefined? ==> r.anonymousId == ids.anonymousId
    ensures p.clientId.Given? ==> r.clientId == p.clientId.value
    ensures p.clientId.Undefined? ==> r.clientId == ids.clientId
    ensures p.deviceId.Given? ==> r.deviceId == p.deviceId.value
    ensures p.deviceId.Undefined? ==> r.deviceId == ids.deviceId
    ensures p.appInstanceId.Given? ==> r.appInstanceId == p.appInstanceId.value
    ensures p.appInstanceId.Undefined? ==> r.appInstanceId == ids.appInstanceId
    ensures r.channel == (if Truthy(p.channel) then p.channel.value else c.channel)
  {
    RecommendBody(p, c.domainId, ids, c.channel, p.context)
  }

  class RecommendSdkNode {
    var initialized: bool
    var config: NodeConfig
    /** The six identity slots of `config`. */
    var ids: Ids
    /** Whether the interval of `_startFlushTimer` is installed. */
    var timerRunning: bool
    const outbox: Outbox
    const oracle: IdOracle

    ghost predicate Valid()
      reads this, outbox
    {
      && outbox.Valid()
      && config.batchSize >= 1
      && (!initialized ==> !timerRunning)
    }

    constructor ()
      ensures Valid() && !initialized && config == DefaultNodeConfig && ids == NoIds && !timerRunning
      ensures fresh(outbox) && fresh(oracle) && outbox.queue == [] && oracle.issued == {}
    {
      initialized := false;
      config := DefaultNodeConfig;
      ids := NoIds;
      timerRunning := false;
      outbox := new Outbox();
      oracle := new IdOracle();
    }

    /**
     * `init(options)`: nothing on a second call; an endpoint that does not
     * resolve is refused with nothing changed; otherwise the options are
     * applied, each slot is the option, else the slot already held, else a
     * new identifier (anonymous and session ids) or null, and the timer starts.
     */
    method Init(o: NodeOptions) returns (r: Result<(), NodeError>)
      requires Valid()
      requires o.batchSize.Some? ==> o.batchSize.value >= 1
      modifies this`initialized, this`config, this`ids, this`timerRunning, oracle
      ensures Valid()
      ensures old(initialized) ==> r.Ok? && unchanged(this) && unchanged(oracle)
      ensures !old(initialized) && ResolveApiUrl(Some(o.endpoint), BetterwayUrls) == "" ==>
        r == Err(MissingEndpoint) && unchanged(this) && unchanged(oracle)
      ensures !old(initialized) && ResolveApiUrl(Some(o.endpoint), BetterwayUrls) != "" ==>
        && r.Ok? && initialized && timerRunning
        && config == NodeConfigured(old(config), o, ResolveApiUrl(Some(o.endpoint), BetterwayUrls))
        && ResolvedOrFresh(ids.anonymousId, o.ids.anonymousId, old(ids.anonymousId), old(oracle.issued), "anon")
        && ResolvedOrFresh(ids.sessionId, o.ids.sessionId, old(ids.sessionId), old(oracle.issued), "sess")
        && ids.userId == OrNull(Or(o.ids.userId, old(ids.userId)))
        && ids.clientId == OrNull(Or(o.ids.clientId, old(ids.clientId)))
        && ids.deviceId == OrNull(Or(o.ids.deviceId, old(ids.deviceId)))
        && ids.appInstanceId == OrNull(Or(o.ids.appInstanceId, old(ids.appInstanceId)))
    {
      if initialized {
        return Ok(());
      }
      var apiUrl := ResolveApiUrl(Some(o.endpoint), BetterwayUrls);
      if apiUrl == "" {
        return Err(MissingEndpoint);
      }
      config := NodeConfigured(config, o, apiUrl);
      var anon := oracle.ResolveOrIssue(o.ids.anonymousId, ids.anonymousId, "anon", Held(ids));
      var userId := OrNull(Or(o.ids.userId, ids.userId));
      var sessionId := oracle.ResolveOrIssue(o.ids.sessionId, ids.sessionId, "sess", Held(ids));
      ids := Ids(anon, userId, sessionId,
                 OrNull(Or(o.ids.clientId, ids.clientId)),
                 OrNull(Or(o.ids.deviceId, ids.deviceId)),
                 OrNull(Or(o.ids.appInstanceId, ids.appInstanceId)));
      initialized := true;
      timerRunning := true;
      r := Ok(());
    }

    /**
     * `trackEvent(eventType, payload, options)`: refused before `init`;
     * otherwise the event is sent on its own when `options.immediate` is set
     * or its type is an immediate type, and queued otherwise. "Immediate
     * type" is the own-key reading `SendsImmediately`, not the property lookup
     * as written, which also sends inherited `Object.prototype` names such as
     * "toString" at once.
     */
    method TrackEvent(eventType: Option<string>, payload: Option<Payload>, opts: TrackOptions, now: string)
      returns (r: Result<Sent, NodeError>)
      requires Valid()
      modifies outbox, oracle
      ensures Valid() && oracle.issued >= old(oracle.issued)
      ensures !initialized ==> r == Err(NotInitialized) && unchanged(outbox) && unchanged(oracle)
      ensures initialized ==>
        && r.Ok? && (r.value.Direct? <==> SendsImmediately(opts.immediate, config.immediateEventTypes, EventTypeOr(eventType)))
        && NodeTracked(r.value.ev, config, ids, EventTypeOr(eventType), payload, opts, now, old(oracle.issued))
        && Handed(r.value, config.batchSize, old(outbox.Ledger()), outbox.Ledger())
    {
      if !initialized {
        return Err(NotInitialized);
      }
      var requestId := oracle.RandomId("req", {});
      var ev := NodeBaseEvent(config, ids, EventTypeOr(eventType), OrElse(opts.url, ""), payload, opts, requestId, now);
      if SendsImmediately(opts.immediate, config.immediateEventTypes, ev.eventType) {
        outbox.SendNow(ev);
        r := Ok(Direct(ev));
      } else {
        var d := outbox.Enqueue(ev, config.batchSize);
        r := Ok(Queued(ev, d));
      }
    }

    /** `trackAction(actionName, payload, options)`: an immediate "action" event naming the action. */
    method TrackAction(actionName: string, payload: Option<Payload>, opts: TrackOptions, now: string)
      returns (r: Result<Sent, NodeError>)
      requires Valid()
      modifies outbox, oracle
      ensures Valid() && oracle.issued >= old(oracle.issued)
      ensures !initialized ==> r == Err(NotInitialized) && unchanged(outbox) && unchanged(oracle)
      ensures initialized ==>
        && r.Ok? && r.value.Direct? && Handed(r.value, config.batchSize, old(outbox.Ledger()), outbox.Ledger())
        && NodeTracked(r.value.ev, config, ids, "action", Some(ActionPayload(actionName, payload)), opts.(immediate := true), now, old(oracle.issued))
        && r.value.ev.payload["actionName"] == Text(actionName)
    {
      r := TrackEvent(Some("action"), Some(ActionPayload(actionName, payload)), opts.(immediate := true), now);
    }

    /**
     * `identify(params, options)`: the defined parameters are applied to the
     * slots; then, when emission is on, one immediate "identify" event
     * carries the slots before and after. Before `init` the slots are already
     * updated when the emission is refused.
     */
    method Identify(p: IdentityParams, emitEvent: Option<bool>, opts: TrackOptions, now: string)
      returns (r: Result<Option<Sent>, NodeError>)
      requires Valid()
      modifies this`ids, outbox, oracle
      ensures Valid()
      ensures ids == ApplyIdentity(old(ids), p)
      ensures !ShouldEmit(emitEvent, config.emitIdentityEvents) ==> r == Ok(None) && unchanged(outbox) && unchanged(oracle)
      ensures ShouldEmit(emitEvent, config.emitIdentityEvents) && !initialized ==>
        r == Err(NotInitialized) && unchanged(outbox) && unchanged(oracle)
      ensures ShouldEmit(emitEvent, config.emitIdentityEvents) && initialized ==>
        && r.Ok? && r.value.Some? && r.value.value.Direct?
        && Handed(r.value.value, config.batchSize, old(outbox.Ledger()), outbox.Ledger())
        && NodeTracked(r.value.value.ev, config, ids, "identify", Some(IdentifyPayload(SnapshotOf(old(ids)), SnapshotOf(ids))),
                       IdentityEventOptions(opts), now, old(oracle.issued))
    {
      var prev := SnapshotOf(ids);
      ids := ApplyIdentity(ids, p);
      if ShouldEmit(emitEvent, config.emitIdentityEvents) {
        var t := TrackEvent(Some("identify"), Some(IdentifyPayload(prev, SnapshotOf(ids))), IdentityEventOptions(opts), now);
        r := if t.Ok? then Ok(Some(t.value)) else Err(t.error);
      } else {
        r := Ok(None);
      }
    }

    /**
     * `logout(options)`: the "logout" event goes first, with the user still
     * set; then the user id is cleared, the session id renewed unless
     * `resetSession` is false, and the anonymous id renewed only on request.
     * Before `init` an emitting logout is refused and changes nothing.
     */
    method Logout(o: NodeLogoutOptions, now: string) returns (r: Result<Option<Sent>, NodeError>)
      requires Valid()
      modifies this`ids, outbox, oracle
      ensures Valid()
      ensures ShouldEmit(o.emitEvent, config.emitIdentityEvents) && !initialized ==>
        r == Err(NotInitialized) && ids == old(ids) && unchanged(outbox) && unchanged(oracle)
      ensures ShouldEmit(o.emitEvent, config.emitIdentityEvents) && initialized ==>
        && r.Ok? && r.value.Some? && r.value.value.Direct?
        && Handed(r.value.value, config.batchSize, old(outbox.Ledger()), outbox.Ledger())
        && NodeTracked(r.value.value.ev, config, old(ids), "logout", Some(LogoutPayload(old(ids))),
                       IdentityEventOptions(o.event), now, old(oracle.issued))
      ensures !ShouldEmit(o.emitEvent, config.emitIdentityEvents) ==> r == Ok(None) && unchanged(outbox)
      ensures r.Ok? ==>
        && ids.userId == None
        && ids.clientId == old(ids.clientId) && ids.deviceId == old(ids.deviceId)
        && ids.appInstanceId == old(ids.appInstanceId)
        && (o.resetSession == Some(false) ==> ids.sessionId == old(ids.sessionId))
        && (o.resetSession != Some(false) ==>
              ids.sessionId.Some? && HasPrefix(ids.sessionId.value, "sess_") &&
              ids.sessionId.value !in old(oracle.issued) && ids.sessionId != old(ids.sessionId))
        && (!IsSet(o.rotateAnonymousId) ==> ids.anonymousId == old(ids.anonymousId))
        && (IsSet(o.rotateAnonymousId) ==>
              ids.anonymousId.Some? && HasPrefix(ids.anonymousId.value, "anon_") &&
              ids.anonymousId.value !in old(oracle.issued) && ids.anonymousId != old(ids.anonymousId))
    {
      if ShouldEmit(o.emitEvent, config.emitIdentityEvents) {
        var t := TrackEvent(Some("logout"), Some(LogoutPayload(ids)), IdentityEventOptions(o.event), now);
        if t.Err? {
          return Err(t.error);
        }
        r := Ok(Some(t.value));
      } else {
        r := Ok(None);
      }
      ids := ids.(userId := None);
      if o.resetSession != Some(false) {
        var s := oracle.RandomId("sess", Held(ids));
        ids := ids.(sessionId := Some(s));
      }
      if IsSet(o.rotateAnonymousId) {
        var a := oracle.RandomId("anon", Held(ids));
        ids := ids.(anonymousId := Some(a));
      }
    }

    /** `flush()` up to the network call: the first `batchSize` events leave the queue as one batch. */
    method Flush() returns (d: Dispatch)
      requires Valid()
      modifies outbox
      ensures Valid() && outbox.accepted == old(outbox.accepted)
      ensures old(outbox.queue) == [] ==> d == Idle && outbox.Ledger() == old(outbox.Ledger())
      ensures old(outbox.queue) != [] ==>
        && d.Posted? && d.events == Batch(old(outbox.queue), config.batchSize)
        && outbox.queue == Remainder(old(outbox.queue), config.batchSize)
        && outbox.inFlight == old(outbox.inFlight) + multiset(d.events)
    {
      d := outbox.Flush(config.batchSize, false, NoBeacon);
    }

    /** The interval callback of `_startFlushTimer`: a `flush()` while the timer is installed. */
    method OnTimerTick() returns (d: Dispatch)
      requires Valid()
      modifies outbox
      ensures Valid() && outbox.accepted == old(outbox.accepted)
      ensures !timerRunning || old(outbox.queue) == [] ==> d == Idle && outbox.Ledger() == old(outbox.Ledger())
      ensures timerRunning && old(outbox.queue) != [] ==>
        d.Posted? && d.events == Batch(old(outbox.queue), config.batchSize) &&
        outbox.queue == Remainder(old(outbox.queue), config.batchSize)
    {
      d := Idle;
      if timerRunning {
        d := Flush();
      }
    }

    /**
     * `recommend(params)` up to the request it posts: refused before `init`;
     * identity fields by the `!== undefined` rule, the channel by `||`.
     */
    function Recommend(p: RecommendParams): (r: Result<RecommendRequest, NodeError>)
      reads this
      ensures r.Ok? <==> initialized
      ensures r.Ok? ==> r.value == NodeRecommendBody(p, config, ids)
      ensures r.Ok? && p.userId.Undefined? && p.anonymousId.Undefined? && p.domainId.Undefined? ==>
        r.value.userId == ids.userId && r.value.anonymousId == ids.anonymousId && r.value.domainId == config.domainId
    {
      if !initialized then Err(NotInitialized) else Ok(NodeRecommendBody(p, config, ids))
    }
  }
}
