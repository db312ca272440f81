/**
 * The event record and the payloads the SDK builds for it.
 *
 * Payloads are JSON objects; here a map from field name to a small JSON-like
 * value. The SDK adds fields to the caller's payload object: `journey` on every
 * browser event, `actionName` for actions, `prev`/`next` for `identify`.
 */
module Events {
  import opened JsValues
  import opened Identity
  import opened Journey

  datatype Value = Text(s: string) | Null | Snap(snap: Snapshot) | Trail(entries: seq<Entry>)

  type Payload = map<string, Value>

  /** The canonical event record posted to `/api/v1/events` and `/api/v1/events/batch`. */
  datatype Event = Event(
    domainId: Option<string>,
    ids: Ids,
    requestId: string,
    pageInstanceId: Option<string>,
    canonicalPageKey: Option<string>,
    sdkVersion: string,
    appVersion: Option<string>,
    channel: string,
    eventType: string,
    url: string,
    referrer: Option<string>,
    userAgent: Option<string>,
    payload: Payload,
    timestamp: string)

  function TextOrNull(v: Option<string>): Value {
    if v.Some? then Text(v.value) else Null
  }

  /** `payload || {}`. */
  function PayloadOrEmpty(p: Option<Payload>): Payload {
    if p.Some? then p.value else map[]
  }

  /** `eventType || "event"`. */
  function EventTypeOr(t: Option<string>): string {
    OrElse(t, "event")
  }

  /** `_withJourney(payload)`: the payload with `journey` set to the last `maxLen` entries. */
  function WithJourney(p: Option<Payload>, journey: seq<Entry>, maxLen: nat): (r: Payload)
    requires maxLen >= 1
    ensures "journey" in r && r["journey"] == Trail(Window(journey, maxLen))
    ensures forall k :: k in PayloadOrEmpty(p) && k != "journey" ==> k in r && r[k] == PayloadOrEmpty(p)[k]
    ensures r.Keys == PayloadOrEmpty(p).Keys + {"journey"}
  {
    PayloadOrEmpty(p)["journey" := Trail(Window(journey, maxLen))]
  }

  /** `trackAction`'s payload: the caller's payload with `actionName` set. */
  function ActionPayload(actionName: string, p: Option<Payload>): Payload {
    PayloadOrEmpty(p)["actionName" := Text(actionName)]
  }

  /** `identify`'s payload `{ prev, next }`. */
  function IdentifyPayload(prev: Snapshot, next: Snapshot): Payload {
    map["prev" := Snap(prev), "next" := Snap(next)]
  }

  /** `logout`'s payload: the identity still live when the event is built. */
  function LogoutPayload(ids: Ids): Payload {
    map["userId" := TextOrNull(ids.userId),
        "anonymousId" := TextOrNull(ids.anonymousId),
        "sessionId" := TextOrNull(ids.sessionId)]
  }

  /** The journey entry pushed for an event: `{ ts: ev.timestamp, eventType: ev.eventType, url: ev.url }`. */
  function EntryOf(ev: Event): Entry {
    Entry(ev.timestamp, ev.eventType, ev.url)
  }

  /** `options.emitEvent !== undefined ? !!options.emitEvent : !!config.emitIdentityEvents`. */
  function ShouldEmit(emitEvent: Option<bool>, emitIdentityEvents: bool): bool {
    if emitEvent.Some? then emitEvent.value else emitIdentityEvents
  }

  // ---------------------------------------------------------------------
  // Which event types skip the queue

  /** `{ action: true }`: the source module and both Node builds. */
  const ActionOnly: map<string, bool> := map["action" := true]

  /** The larger default set of the bundled browser build. */
  const CommerceDefaults: map<string, bool> := map[
    "action" := true, "add_to_cart" := true, "remove_from_cart" := true, "purchase" := true,
    "begin_checkout" := true, "add_payment_info" := true, "add_shipping_info" := true]

  /** `{ ...defaults, ...overrides }`. */
  function MergeImmediateTypes(defaults: map<string, bool>, overrides: map<string, bool>): (r: map<string, bool>)
    ensures r.Keys == defaults.Keys + overrides.Keys
    ensures forall k :: k in overrides ==> r[k] == overrides[k]
    ensures forall k :: k in defaults && k !in overrides ==> r[k] == defaults[k]
  {
    defaults + overrides
  }

  /** The type is configured as immediate: an own key of the table whose value is true. */
  predicate IsImmediateType(types: map<string, bool>, t: string) {
    t in types && types[t]
  }

  /**
   * The names a plain JavaScript object inherits from `Object.prototype`;
   * looking one up on `immediateEventTypes` yields a function or an object,
   * which is truthy.
   */
  const ObjectPrototypeKeys: set<string> := {
    "constructor", "hasOwnProperty", "isPrototypeOf", "propertyIsEnumerable",
    "toLocaleString", "toString", "valueOf", "__proto__",
    "__defineGetter__", "__defineSetter__", "__lookupGetter__", "__lookupSetter__"}

  /** `immediateEventTypes[type]` as written: own keys, then inherited members. */
  predicate IsImmediateTypeAsWritten(types: map<string, bool>, t: string) {
    if t in types then types[t] else t in ObjectPrototypeKeys
  }

  /**
   * As written, tracking an event whose type is an inherited member name
   * (for example "toString") sends it immediately although no table lists it;
   * the two readings agree on every other name.
   */
  lemma InheritedNamesLookImmediate(types: map<string, bool>, t: string)
    ensures t in ObjectPrototypeKeys && t !in types ==>
      IsImmediateTypeAsWritten(types, t) && !IsImmediateType(types, t)
    ensures t !in ObjectPrototypeKeys ==> (IsImmediateTypeAsWritten(types, t) <==> IsImmediateType(types, t))
    ensures IsImmediateTypeAsWritten(ActionOnly, "toString") && !IsImmediateType(ActionOnly, "toString")
  {
  }

  /**
   * `!!options.immediate || immediateEventTypes[type]`, with own keys only:
   * it differs from the lookup as written exactly on inherited member names
   * that the table does not list, which it leaves to the queue.
   */
  function SendsImmediately(immediate: bool, types: map<string, bool>, t: string): (r: bool)
    ensures immediate ==> r
    ensures t in ObjectPrototypeKeys && t !in types ==> (r <==> immediate)
    ensures t !in ObjectPrototypeKeys ==> (r <==> immediate || IsImmediateTypeAsWritten(types, t))
    ensures t in types ==> (r <==> immediate || IsImmediateTypeAsWritten(types, t))
  {
    immediate || IsImmediateType(types, t)
  }

  /** The bundled defaults keep every type the older table had, and overrides can switch any of them off. */
  lemma BundledDefaultsExtendActionOnly(overrides: map<string, bool>)
    ensures forall t :: IsImmediateType(ActionOnly, t) ==> IsImmediateType(CommerceDefaults, t)
    ensures IsImmediateType(CommerceDefaults, "purchase") && !IsImmediateType(ActionOnly, "purchase")
    ensures "purchase" in overrides && !overrides["purchase"] ==>
      !IsImmediateType(MergeImmediateTypes(CommerceDefaults, overrides), "purchase")
    ensures "purchase" !in overrides ==>
      IsImmediateType(MergeImmediateTypes(CommerceDefaults, overrides), "purchase")
  {
  }

  // ---------------------------------------------------------------------
  // The recommendation request

  /** The arguments of `recommend(params)` that shape the request body. */
  datatype RecommendParams = RecommendParams(
    domainId: Param,
    userId: Param,
    anonymousId: Param,
    clientId: Param,
    deviceId: Param,
    appInstanceId: Param,
    channel: Option<string>,
    url: Option<string>,
    context: Option<Payload>)

  /** The body posted to `/api/v1/recommend`. */
  datatype RecommendRequest = RecommendRequest(
    domainId: Option<string>,
    userId: Option<string>,
    anonymousId: Option<string>,
    channel: string,
    clientId: Option<string>,
    deviceId: Option<string>,
    appInstanceId: Option<string>,
    context: Option<Payload>)

  /**
   * The request's identity fields: each from the parameter when it is not
   * `undefined` (even when null), from the configuration otherwise; the
   * channel from the parameter only when it is truthy.
   */
  function RecommendBody(p: RecommendParams, domainId: Option<string>, ids: Ids, channel: string, context: Option<Payload>): (r: RecommendRequest)
    ensures p.userId.Given? ==> r.userId == p.userId.value
    ensures p.userId.Undefined? ==> r.userId == ids.userId
    ensures p.anonymousId.Given? ==> r.anonymousId == p.anonymousId.value
    ensures p.anonymousId.Undefined? ==> r.anonymousId == ids.anonymousId
    ensures p.domainId.Given? ==> r.domainId == p.domainId.value
    ensures p.domainId.Undefined? ==> r.domainId == domainId
    ensures p.clientId.Given? ==> r.clientId == p.clientId.value
    ensures p.clientId.Undefined? ==> r.clientId == ids.clientId
    ensures p.deviceId.Given? ==> r.deviceId == p.deviceId.value
    ensures p.deviceId.Undefined? ==> r.deviceId == ids.deviceId
    ensures p.appInstanceId.Given? ==> r.appInstanceId == p.appInstanceId.value
    ensures p.appInstanceId.Undefined? ==> r.appInstanceId == ids.appInstanceId
    ensures r.channel == (if Truthy(p.channel) then p.channel.value else channel)
    ensures r.context == context
  {
    RecommendRequest(
      Override(p.domainId, domainId),
      Override(p.userId, ids.userId),
      Override(p.anonymousId, ids.anonymousId),
      OrElse(p.channel, channel),
      Override(p.clientId, ids.clientId),
      Override(p.deviceId, ids.deviceId),
      Override(p.appInstanceId, ids.appInstanceId),
      context)
  }
}
