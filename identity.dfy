/**
 * The identity slots and their persistence.
 *
 * Six independent slots, each a string or null. The browser setters store
 * `value || null` in memory and mirror it to host storage (set when truthy,
 * removed otherwise); `clientId` is never persisted. `identify` applies only
 * the parameters that are not `undefined`.
 */
module Identity {
  import opened JsValues

  datatype Ids = Ids(
    anonymousId: Option<string>,
    userId: Option<string>,
    sessionId: Option<string>,
    clientId: Option<string>,
    deviceId: Option<string>,
    appInstanceId: Option<string>)

  const NoIds := Ids(None, None, None, None, None, None)

  /** The identifier a slot holds, if any. */
  function Present(v: Option<string>): set<string> {
    if v.Some? then {v.value} else {}
  }

  /** Every identifier the six slots hold: a new identifier is kept apart from them. */
  function Held(ids: Ids): set<string> {
    Present(ids.anonymousId) + Present(ids.userId) + Present(ids.sessionId) +
    Present(ids.clientId) + Present(ids.deviceId) + Present(ids.appInstanceId)
  }

  /** The arguments of `identify(params)`: each slot may be left `undefined`. */
  datatype IdentityParams = IdentityParams(
    userId: Param,
    anonymousId: Param,
    sessionId: Param,
    clientId: Param,
    deviceId: Param,
    appInstanceId: Param)

  /** The `{ userId, anonymousId, sessionId }` snapshots carried by identity events. */
  datatype Snapshot = Snapshot(userId: Option<string>, anonymousId: Option<string>, sessionId: Option<string>)

  function SnapshotOf(ids: Ids): Snapshot {
    Snapshot(ids.userId, ids.anonymousId, ids.sessionId)
  }

  /**
   * One slot under one parameter: left alone when `undefined`; otherwise
   * holding the given value when it is truthy and null when it is falsy.
   */
  predicate SlotUpdated(before: Option<string>, after: Option<string>, p: Param) {
    && (p.Undefined? ==> after == before)
    && (p.Given? ==> (after.None? <==> !Truthy(p.value)))
    && (p.Given? && after.Some? ==> after == p.value && after.value != "")
  }

  /** The slots after `identify(params)`: the value of `identify` on memory. */
  function ApplyIdentity(ids: Ids, p: IdentityParams): (r: Ids)
    ensures SlotUpdated(ids.userId, r.userId, p.userId)
    ensures SlotUpdated(ids.anonymousId, r.anonymousId, p.anonymousId)
    ensures SlotUpdated(ids.sessionId, r.sessionId, p.sessionId)
    ensures SlotUpdated(ids.clientId, r.clientId, p.clientId)
    ensures SlotUpdated(ids.deviceId, r.deviceId, p.deviceId)
    ensures SlotUpdated(ids.appInstanceId, r.appInstanceId, p.appInstanceId)
  {
    Ids(
      anonymousId := Assign(p.anonymousId, ids.anonymousId),
      userId := Assign(p.userId, ids.userId),
      sessionId := Assign(p.sessionId, ids.sessionId),
      clientId := Assign(p.clientId, ids.clientId),
      deviceId := Assign(p.deviceId, ids.deviceId),
      appInstanceId := Assign(p.appInstanceId, ids.appInstanceId))
  }

  /** Applying the same parameters twice is the same as applying them once. */
  lemma ApplyIdentityIdempotent(ids: Ids, p: IdentityParams)
    ensures ApplyIdentity(ApplyIdentity(ids, p), p) == ApplyIdentity(ids, p)
  {
  }

  /** Later parameters win slot by slot: two calls compose into one. */
  lemma ApplyIdentityCompose(ids: Ids, p: IdentityParams, q: IdentityParams)
    ensures ApplyIdentity(ApplyIdentity(ids, p), q) == ApplyIdentity(ids, IdentityParams(
      if q.userId.Given? then q.userId else p.userId,
      if q.anonymousId.Given? then q.anonymousId else p.anonymousId,
      if q.sessionId.Given? then q.sessionId else p.sessionId,
      if q.clientId.Given? then q.clientId else p.clientId,
      if q.deviceId.Given? then q.deviceId else p.deviceId,
      if q.appInstanceId.Given? then q.appInstanceId else p.appInstanceId))
  {
  }

  // ---------------------------------------------------------------------
  // Host storage (`localStorage` / `sessionStorage`) behind the safe wrappers

  /** A host key-value store, or none (no `localStorage` in this host). */
  datatype Store = Unavailable | Available(items: map<string, string>)

  const AnonymousIdKey := "recommend_sdk_anonymous_id"
  const UserIdKey := "recommend_sdk_user_id"
  const SessionIdKey := "recommend_sdk_session_id"
  const DeviceIdKey := "recommend_sdk_device_id"
  const AppInstanceIdKey := "recommend_sdk_app_instance_id"

  /** `safeGet(storage, key)`: null when there is no store or no such key. */
  function SafeGet(st: Store, key: string): Option<string> {
    if st.Available? && key in st.items then Some(st.items[key]) else None
  }

  /** `safeSet(storage, key, value)`: nothing happens without a store. */
  function SafeSet(st: Store, key: string, value: string): Store {
    if st.Available? then Available(st.items[key := value]) else st
  }

  /** `safeRemove(storage, key)`. */
  function SafeRemove(st: Store, key: string): Store {
    if st.Available? then Available(st.items - {key}) else st
  }

  /** The storage half of a setter: `if (v) safeSet(key, String(v)) else safeRemove(key)`. */
  function Mirror(st: Store, key: string, v: Option<string>): (r: Store)
    ensures r.Available? <==> st.Available?
    ensures r.Available? ==> forall k :: k != key ==> (k in r.items <==> k in st.items)
    ensures r.Available? ==> forall k :: k != key && k in r.items ==> r.items[k] == st.items[k]
  {
    if Truthy(v) then SafeSet(st, key, v.value) else SafeRemove(st, key)
  }

  /** Reading the key back after a setter gives the slot's new value, `v || null`. */
  lemma MirrorReadsBack(st: Store, key: string, v: Option<string>)
    requires st.Available?
    ensures SafeGet(Mirror(st, key, v), key) == OrNull(v)
  {
  }

  /** The storage half of a defined `identify` parameter. */
  function MirrorParam(st: Store, key: string, p: Param): Store {
    if p.Given? then Mirror(st, key, p.value) else st
  }

  /** `localStorage` after `identify(params)`: user, anonymous, device and app-instance ids. */
  function LocalAfterIdentify(local: Store, p: IdentityParams): Store {
    var a := MirrorParam(local, UserIdKey, p.userId);
    var b := MirrorParam(a, AnonymousIdKey, p.anonymousId);
    var c := MirrorParam(b, DeviceIdKey, p.deviceId);
    MirrorParam(c, AppInstanceIdKey, p.appInstanceId)
  }

  /** `sessionStorage` after `identify(params)`: the session id only. */
  function SessionAfterIdentify(session: Store, p: IdentityParams): Store {
    MirrorParam(session, SessionIdKey, p.sessionId)
  }

  /**
   * After `identify`, every persisted slot whose parameter was given reads
   * back from storage as its new in-memory value; `clientId` never reaches
   * either store.
   */
  lemma IdentifyMirrorsStorage(ids: Ids, local: Store, session: Store, p: IdentityParams)
    requires local.Available? && session.Available?
    ensures var r := ApplyIdentity(ids, p);
      var l := LocalAfterIdentify(local, p);
      && (p.userId.Given? ==> SafeGet(l, UserIdKey) == r.userId)
      && (p.anonymousId.Given? ==> SafeGet(l, AnonymousIdKey) == r.anonymousId)
      && (p.deviceId.Given? ==> SafeGet(l, DeviceIdKey) == r.deviceId)
      && (p.appInstanceId.Given? ==> SafeGet(l, AppInstanceIdKey) == r.appInstanceId)
      && (p.sessionId.Given? ==> SafeGet(SessionAfterIdentify(session, p), SessionIdKey) == r.sessionId)
    ensures forall c: Param ::
      LocalAfterIdentify(local, p.(clientId := c)) == LocalAfterIdentify(local, p) &&
      SessionAfterIdentify(session, p.(clientId := c)) == SessionAfterIdentify(session, p)
  {
    var a := MirrorParam(local, UserIdKey, p.userId);
    var b := MirrorParam(a, AnonymousIdKey, p.anonymousId);
    var c := MirrorParam(b, DeviceIdKey, p.deviceId);
    var d := MirrorParam(c, AppInstanceIdKey, p.appInstanceId);
    if p.userId.Given? {
      MirrorReadsBack(local, UserIdKey, p.userId.value);
      assert SafeGet(d, UserIdKey) == SafeGet(a, UserIdKey);
    }
    if p.anonymousId.Given? {
      MirrorReadsBack(a, AnonymousIdKey, p.anonymousId.value);
      assert SafeGet(d, AnonymousIdKey) == SafeGet(b, AnonymousIdKey);
    }
    if p.deviceId.Given? {
      MirrorReadsBack(b, DeviceIdKey, p.deviceId.value);
      assert SafeGet(d, DeviceIdKey) == SafeGet(c, DeviceIdKey);
    }
    if p.appInstanceId.Given? {
      MirrorReadsBack(c, AppInstanceIdKey, p.appInstanceId.value);
    }
  }
}
