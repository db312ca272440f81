/**
 * Concrete call sequences on fresh objects, each with the outcome the SDK's
 * documentation and examples describe, proved from the operations' contracts.
 */
module Scenarios {
  import opened JsValues
  import opened Endpoint
  import opened Identity
  import opened Journey
  import opened Events
  import opened Delivery
  import opened BrowserSdk
  import opened NodeSdk

  // ---------------------------------------------------------------------
  // The queue

  /** A new queue holding `es`, tracked one by one below the batch size, so that none was sent. */
  method Filled(es: seq<Event>, batchSize: nat) returns (box: Outbox)
    requires |es| < batchSize
    ensures fresh(box) && box.Valid() && box.queue == es
    ensures box.inFlight == multiset{} && box.delivered == multiset{}
  {
    box := new Outbox();
    var i := 0;
    while i < |es|
      invariant 0 <= i <= |es|
      invariant box.Valid() && box.queue == es[..i]
      invariant box.inFlight == multiset{} && box.delivered == multiset{}
    {
      var d := box.Enqueue(es[i], batchSize);
      assert es[..i + 1] == es[..i] + [es[i]];
      i := i + 1;
    }
    assert es[..i] == es;
  }

  /** A batch in flight fails after `ev` was queued behind it. */
  method FailAfterQueuing(box: Outbox, batch: seq<Event>, ev: Event) returns (q: seq<Event>)
    requires box.Valid() && box.queue == [] && multiset(batch) <= box.inFlight
    modifies box
    ensures q == batch + [ev]
  {
    var d := box.Enqueue(ev, 10);
    box.Settle(batch, false);
    q := box.queue;
  }

  /** A batch that fails while a later event is queued goes back in front of it: a, b, c, d. */
  method FailedBatchComesBackFirst(a: Event, b: Event, c: Event, d: Event) returns (q: seq<Event>)
    ensures q == [a, b, c, d]
  {
    var box := Filled([a, b, c], 10);
    var batch := box.Flush(10, false, NoBeacon);
    assert Batch([a, b, c], 10) == [a, b, c];
    q := FailAfterQueuing(box, batch.events, d);
  }

  /** The event that brings the queue to `batchSize` sends the whole batch at once. */
  method QueueFlushesAtBatchSize(a: Event, b: Event) returns (first: Dispatch, second: Dispatch, q: seq<Event>)
    ensures first == Idle && second == Posted([a, b]) && q == []
  {
    var box := new Outbox();
    first := box.Enqueue(a, 2);
    second := box.Enqueue(b, 2);
    q := box.queue;
  }

  /** A single event whose send fails is queued again, ahead of what was waiting. */
  method FailedSendRequeuesAtHead(a: Event, b: Event) returns (q: seq<Event>)
    ensures q == [b, a]
  {
    var box := new Outbox();
    var d1 := box.Enqueue(a, 10);
    box.SendNow(b);
    box.Settle([b], false);
    q := box.queue;
  }

  // ---------------------------------------------------------------------
  // The browser object

  const ShopHost := BrowserSdk.Host(true, true, Some("https://shop.example/p/1"), Path(Some("/p/1")), None, None, None)

  /** `init` with an explicit `apiUrl`, no first page view, no route hooks and the given journey cap. */
  function QuietBrowserOptions(journeyMaxLen: Option<nat>): BrowserOptions {
    BrowserOptions(EndpointOptions(Some("https://api.example/"), None, map[]), None, None, None, None, false,
                   None, Some(false), Some(false), None, journeyMaxLen, None, None, None, None, NoIds)
  }

  /** A fresh object after the quiet `init`: started, with an empty queue and journey. */
  method QuietBrowser(build: Build, journeyMaxLen: Option<nat>) returns (sdk: RecommendSdk)
    requires journeyMaxLen.Some? ==> journeyMaxLen.value >= 1
    ensures fresh(sdk) && fresh(sdk.outbox) && fresh(sdk.oracle) && sdk.Valid() && sdk.initialized && sdk.build == build
    ensures sdk.outbox.queue == [] && sdk.journey == [] && sdk.local.Available? && sdk.session.Available?
    ensures sdk.config == Configured(DefaultConfig(build), QuietBrowserOptions(journeyMaxLen), build, "https://api.example")
    ensures sdk.config.immediateEventTypes == DefaultConfig(build).immediateEventTypes && sdk.config.batchSize == 20
  {
    sdk := new RecommendSdk(build, Available(map[]), Available(map[]));
    var r := sdk.Init(QuietBrowserOptions(journeyMaxLen), ShopHost, "t0");
  }

  /** In the bundle a purchase skips the queue; the source module queues it. */
  method PurchaseIsImmediateInTheBundleOnly(build: Build) returns (direct: bool, queued: nat)
    ensures direct <==> build == Bundle
    ensures queued == (if build == Bundle then 0 else 1)
  {
    var sdk := QuietBrowser(build, None);
    BundledDefaultsExtendActionOnly(map[]);
    var t := sdk.TrackEvent(Some("purchase"), None, false, None, ShopHost, "t1");
    direct := t.value.Direct?;
    queued := |sdk.outbox.queue|;
  }

  /**
   * `logout()` with the defaults sends the logout event on its own with the
   * identity still logged in, then clears the user, renews the session and
   * the page, and keeps the anonymous id.
   */
  method LogoutWithDefaults() returns (before: Ids, after: Ids, pageRenewed: bool, stored: Option<string>, sentUser: Option<string>)
    ensures after.userId == None && after.anonymousId == before.anonymousId
    ensures after.sessionId != before.sessionId && after.sessionId.Some?
    ensures pageRenewed && stored == after.sessionId
    ensures sentUser == Some("u1")
  {
    var sdk := QuietBrowser(Bundle, None);
    var r1 := sdk.Identify(IdentityParams(Given(Some("u1")), Undefined, Undefined, Undefined, Undefined, Undefined),
                           Some(false), None, ShopHost, "t1");
    before := sdk.ids;
    var page := sdk.pageInstanceId;
    var r2 := sdk.Logout(BrowserSdk.LogoutOptions(None, None, None, None), ShopHost, "t2");
    sentUser := r2.value.value.ev.ids.userId;
    after := sdk.ids;
    pageRenewed := sdk.pageInstanceId != page;
    stored := SafeGet(sdk.session, SessionIdKey);
  }

  /** One queued event of type `t` on the shop page, seen from the journey. */
  method TrackOnShop(sdk: RecommendSdk, t: string, now: string)
    requires sdk.Valid() && sdk.initialized && t != ""
    modifies sdk`journey, sdk.outbox, sdk.oracle
    ensures sdk.Valid() && sdk.initialized && sdk.config == old(sdk.config)
    ensures sdk.journey == Window(old(sdk.journey) + [Entry(now, t, "https://shop.example/p/1")], sdk.config.journeyMaxLen)
  {
    var r := sdk.TrackEvent(Some(t), None, false, None, ShopHost, now);
    assert PageUrl(None, ShopHost) == "https://shop.example/p/1";
    assert EntryOf(r.value.ev) == Entry(now, t, "https://shop.example/p/1");
  }

  /** A journey capped at two entries keeps the two newest tracked events, oldest first. */
  method JourneyKeepsNewest() returns (journey: seq<Entry>)
    ensures journey == [Entry("t2", "b", "https://shop.example/p/1"), Entry("t3", "c", "https://shop.example/p/1")]
  {
    var sdk := QuietBrowser(SourceModule, Some(2));
    assert sdk.config.journeyMaxLen == 2;
    TrackOnShop(sdk, "a", "t1");
    TrackOnShop(sdk, "b", "t2");
    TrackOnShop(sdk, "c", "t3");
    journey := sdk.journey;
  }

  // ---------------------------------------------------------------------
  // The Node object

  function NodeInitOptions(channel: Option<string>): NodeOptions {
    NodeOptions(EndpointOptions(Some("https://api.example/"), None, map[]), None, channel, None, None, false,
                None, None, None, NoIds)
  }

  const SetUser := IdentityParams(Given(Some("u1")), Undefined, Undefined, Undefined, Undefined, Undefined)

  /** A user identified before `init` (without an event) is kept by `init`. */
  method NodeIdentifyBeforeInitIsKept() returns (userId: Option<string>, anonymous: Option<string>)
    ensures userId == Some("u1") && Truthy(anonymous)
  {
    var sdk := new RecommendSdkNode();
    var r0 := sdk.Identify(SetUser, Some(false), NoTrackOptions, "t0");
    var r1 := sdk.Init(NodeInitOptions(None));
    userId := sdk.ids.userId;
    anonymous := sdk.ids.anonymousId;
  }

  /** Before `init`, an emitting `identify` fails only after the slots were updated. */
  method NodeIdentifyBeforeInitFailsLate() returns (r: Result<Option<Sent>, NodeError>, userId: Option<string>)
    ensures r == Err(NodeSdk.NotInitialized) && userId == Some("u1")
  {
    var sdk := new RecommendSdkNode();
    r := sdk.Identify(SetUser, None, NoTrackOptions, "t0");
    userId := sdk.ids.userId;
  }

  /** `identify({ userId: "u1" })` then `identify({ userId: null })` leaves no user. */
  method NodeIdentifyThenClear() returns (first: Option<string>, second: Option<string>)
    ensures first == Some("u1") && second == None
  {
    var sdk := new RecommendSdkNode();
    var r0 := sdk.Init(NodeInitOptions(None));
    var r1 := sdk.Identify(SetUser, Some(false), NoTrackOptions, "t0");
    first := sdk.ids.userId;
    var r2 := sdk.Identify(SetUser.(userId := Given(None)), Some(false), NoTrackOptions, "t1");
    second := sdk.ids.userId;
  }

  /** A second `init` changes nothing: the first call's channel stays. */
  method NodeSecondInitIsIgnored() returns (channel: string)
    ensures channel == "app"
  {
    var sdk := new RecommendSdkNode();
    var r0 := sdk.Init(NodeInitOptions(Some("app")));
    var r1 := sdk.Init(NodeInitOptions(Some("server")));
    channel := sdk.config.channel;
  }

  /** The user id carried by one "view" event tracked with `opts`. */
  method NodeEventUser(sdk: RecommendSdkNode, opts: TrackOptions, now: string) returns (u: Option<string>)
    requires sdk.Valid() && sdk.initialized
    modifies sdk.outbox, sdk.oracle
    ensures sdk.Valid() && u == Override(opts.userId, sdk.ids.userId)
  {
    var t := sdk.TrackEvent(Some("view"), None, opts, now);
    u := t.value.ev.ids.userId;
  }

  /** An option given as null clears the event's user, while `undefined` leaves the configured one. */
  method NodeOverrideByNull() returns (withNull: Option<string>, without: Option<string>)
    ensures withNull == None && without == Some("u1")
  {
    var sdk := new RecommendSdkNode();
    var r0 := sdk.Init(NodeInitOptions(None).(ids := NoIds.(userId := Some("u1"))));
    assert sdk.initialized && sdk.ids.userId == Some("u1");
    withNull := NodeEventUser(sdk, NoTrackOptions.(userId := Given(None)), "t1");
    without := NodeEventUser(sdk, NoTrackOptions, "t2");
  }

  /** An event named after an inherited member ("toString") is queued like any other type. */
  method NodeInheritedNameIsQueued() returns (queued: bool)
    ensures queued
  {
    var sdk := new RecommendSdkNode();
    var r0 := sdk.Init(NodeInitOptions(None));
    var t := sdk.TrackEvent(Some("toString"), None, NoTrackOptions, "t1");
    queued := t.value.Queued?;
  }
}
