# Recommend-SDK in Dafny

A model of the Recommend-SDK client libraries. Two of them are modelled:

- **The browser SDK** (`BrowserSdk.RecommendSdk`). It covers both forms of the browser SDK:
  - the source module `src/browser/recommend-sdk.module.js`;
  - the bundled build `dist/browser/recommend-sdk.mjs`, which differs from the source module in several places.

  The `build` constant picks which form an object follows. The `Bundle` build differs in these ways:
  - An `apiUrl` already in the configuration is kept by `init`.
  - The periodic flush is gated by `enableAutoFlush`.
  - `flushOnRouteChange` is honoured, and the route handler checks the pathname.
  - There are more immediate event types, and callers can merge in their own.
  - It has its own endpoint table.
- **The Node SDK** (`NodeSdk.RecommendSdkNode`). This is `src/node/recommend-sdk-node.cjs`, of which `dist/node/recommend-sdk-node.js` is the compiled copy with the same bodies.

Both objects share several pieces:
- the endpoint resolution (`Endpoint`);
- the identity slots and their `identify` update rule (`Identity`);
- the event records and the choice of which events skip the queue (`Events`);
- the bounded journey log (`Journey`);
- the delivery queue (`Delivery.Outbox`).

The delivery queue keeps ghost ledgers: events pending, in flight and delivered. Its invariant says that every accepted event is in exactly one of those places: the ledgers never lose or double-count an event through `_enqueue`, `flush`, `_sendOne` and `_sendBatch`, on success or on failure. The invariant is about the ledgers. The model does not rule out that the server receives an event twice (see "Left out").

The host's state becomes inputs: `localStorage`, `sessionStorage`, `document.cookie`, `window.location`, `document.referrer`, the clock and the outcome of each network call. `randomId` is an `IdOracle` object. The oracle hands out identifiers that are new against everything issued before and against the identifiers the object currently holds. A method that throws in JavaScript returns an `Err` value.

`Scenarios` states, for short call sequences on fresh objects, the outcome each one must have, proved from the operations' contracts.

## Model

| member | source | states |
|---|---|---|
| Endpoint.NormalizeApiUrl | src/browser/recommend-sdk.module.js:88-90 | the result is the input with at most one trailing "/" removed, and it differs from the input exactly when the input ends in "/" |
| Endpoint.NormalizeStripsAtMostOne | src/browser/recommend-sdk.module.js:88-90 | "x//" becomes "x/" and a lone "/" becomes the empty string |
| Endpoint.ResolveApiUrl | src/browser/recommend-sdk.module.js:99-106 | no options give ""; a truthy explicit `apiUrl` gives that URL normalized |
| Endpoint.FallsBackToBuiltIn | src/browser/recommend-sdk.module.js:102-105 | without an explicit URL and without a non-empty caller entry for the environment (no table, entries for other environments only, or an empty entry), the built-in entry is used normalized, and "" when it is missing or empty |
| Endpoint.ExplicitApiUrlWins | src/browser/recommend-sdk.module.js:100-101 | with a truthy `apiUrl`, neither the environment nor the caller's table changes the result |
| Endpoint.CallerTableBeatsBuiltIn | src/browser/recommend-sdk.module.js:102-104 | without an explicit URL, a non-empty entry in the caller's `apiUrls` for the environment is used (normalized) ahead of the built-in table |
| Endpoint.EnvDefaultsToProduction | src/node/recommend-sdk-node.cjs:40 | a missing or empty `env` resolves exactly as "production" does |
| Endpoint.BuiltInTablesCoverKnownEnvs | dist/browser/recommend-sdk.mjs:71-83 | development, staging and production resolve to non-empty URLs from each build's own table; any other environment name, with nothing else given, resolves to "" (so `init` fails) |
| Endpoint.SlashOnlyApiUrlResolvesEmpty | src/node/recommend-sdk-node.cjs:26-44 | an explicit `apiUrl` of "/" normalizes to "" and is refused like a missing one |
| GaCookie.SkipSpaces | src/browser/recommend-sdk.module.js:66 | the greedy `\s*` stops at the first character that is not JavaScript whitespace, or at the end |
| GaCookie.RunEnd | src/browser/recommend-sdk.module.js:66 | the greedy `[^;]*` spans no ";" and stops at a ";" or at the end |
| GaCookie.Split | src/browser/recommend-sdk.module.js:69 | `split` always gives at least one part |
| GaCookie.ParseGaClientIdFromCookie | src/browser/recommend-sdk.module.js:62-75 | no cookie, an empty cookie or no `_ga` match gives null; for the leftmost matched value, the result is non-null exactly when it has at least four dot-separated parts, and is then the third and fourth parts joined by "." |
| GaCookie.JoinSplit | src/browser/recommend-sdk.module.js:69 | joining the parts of a split gives the string back |
| GaCookie.SplitPartsFree | src/browser/recommend-sdk.module.js:69 | no part of a split contains the separator |
| GaCookie.SplitPiece | src/browser/recommend-sdk.module.js:69 | a separator-free prefix followed by the separator splits off as the first part |
| GaCookie.SplitJoin | src/browser/recommend-sdk.module.js:69 | splitting joined separator-free parts gives the parts back |
| GaCookie.ClientIdOfFormattedValue | src/browser/recommend-sdk.module.js:69-71 | a value `GA1.2.<random>.<timestamp>` yields `<random>.<timestamp>` |
| GaCookie.SplitCountsSeparators | src/browser/recommend-sdk.module.js:69 | a split has one more part than there are separators |
| GaCookie.FewDotsGiveNull | dist/browser/recommend-sdk.mjs:50-52 | a value with fewer than three dots yields null |
| GaCookie.LeadingGaEntryIsFound | dist/browser/recommend-sdk.mjs:47 | a cookie string that starts with the `_ga` entry yields that entry's whole value |
| GaCookie.GaEntryAfterSeparatorIsFound | src/browser/recommend-sdk.module.js:66-71 | in a cookie `<entry>;<whitespace>_ga=<v>` followed by nothing or by more entries, the match is `v` (a later `_ga` entry is ignored), and the parser returns the client id of `v` |
| Identity.ApplyIdentity | src/node/recommend-sdk-node.cjs:133-138 | each slot is unchanged when its parameter is `undefined`; otherwise it holds the given value when that is truthy and null when it is falsy |
| Identity.ApplyIdentityIdempotent | src/node/recommend-sdk-node.cjs:133-138 | calling `identify` twice with the same parameters is the same as calling it once |
| Identity.ApplyIdentityCompose | src/node/recommend-sdk-node.cjs:133-138 | two `identify` calls equal one call in which, slot by slot, the later defined parameter wins |
| Identity.Mirror | src/browser/recommend-sdk.module.js:262-267 | a setter's storage write keeps the store present or absent and leaves every other key as it was |
| Identity.MirrorReadsBack | src/browser/recommend-sdk.module.js:262-267 | reading the key back after a setter gives the slot's new value `v \|\| null` |
| Identity.IdentifyMirrorsStorage | src/browser/recommend-sdk.module.js:237-242 | after `identify`, every persisted slot whose parameter was given reads back from its store as its new in-memory value; `clientId` never reaches either store |
| Journey.Window | src/browser/recommend-sdk.module.js:448 | `slice(-n)` has length `min(n, \|s\|)` |
| Journey.WindowIsNewestSuffix | src/browser/recommend-sdk.module.js:405-410 | the window is the newest part of the sequence, in order |
| Journey.WindowAbsorbs | src/browser/recommend-sdk.module.js:405-410 | trimming after each push loses nothing that the window of all entries would keep |
| Journey.RecordAllIsWindow | src/browser/recommend-sdk.module.js:405-410 | after any number of `_pushJourney` calls, the journey is the last `journeyMaxLen` entries ever pushed, oldest first, and never longer than that |
| Journey.RecordAllFromWindow | src/browser/recommend-sdk.module.js:405-410 | recording from the window of a history gives the window of the extended history |
| Journey.SnapshotOfBoundedJourney | dist/browser/recommend-sdk.mjs:423 | `slice(-n)` of a journey within bounds is the whole journey |
| Events.WithJourney | src/browser/recommend-sdk.module.js:445-450 | the payload keeps every caller key except `journey`, which is set to the window of the journey |
| Events.MergeImmediateTypes | dist/browser/recommend-sdk.mjs:167-169 | `{ ...defaults, ...overrides }`: the caller's entries win, and the default entries are kept otherwise |
| Events.InheritedNamesLookImmediate | src/node/recommend-sdk-node.cjs:222-223 | the property lookup as written also answers for names inherited from `Object.prototype`, so "toString" counts as immediate; it agrees with an own-key lookup on every other name (see Findings) |
| Events.SendsImmediately | src/browser/recommend-sdk.module.js:472-474 | `options.immediate` always sends on its own; on every listed type and every name that is not an inherited `Object.prototype` member the result agrees with the lookup as written; an unlisted inherited name (such as "toString") goes to the queue unless `immediate` is set |
| Events.BundledDefaultsExtendActionOnly | dist/browser/recommend-sdk.mjs:122-130 | the bundle's defaults include `action` and add "purchase" and the other commerce types; an override of false switches "purchase" off, and without one "purchase" stays on |
| Events.RecommendBody | dist/browser/recommend-sdk.mjs:533-542 | field by field (`domainId`, `userId`, `anonymousId`, `clientId`, `deviceId`, `appInstanceId`): a given parameter, null included, is used, and an `undefined` one leaves the configured value; the channel comes from the parameter only when it is truthy |
| FreshIds.IdOracle.constructor | src/node/recommend-sdk-node.cjs:17-24 | nothing has been issued yet |
| FreshIds.IdOracle.RandomId | src/node/recommend-sdk-node.cjs:17-24 | `randomId(prefix)`: a new identifier that starts with `prefix_`, was never issued before and is none of the identifiers held |
| FreshIds.IdOracle.ResolveOrIssue | src/browser/recommend-sdk.module.js:185-187 | `given \|\| stored \|\| randomId(prefix)`: the result is truthy, and a new identifier is drawn exactly when both earlier choices are falsy |
| Delivery.BatchSplitsQueue | src/node/recommend-sdk-node.cjs:246 | `splice(0, n)` takes the first `min(n, \|q\|)` events in order; the batch followed by the remainder is the queue, both as a sequence and as a multiset |
| Delivery.FailedBatchRestoresOrder | dist/browser/recommend-sdk.mjs:512-517 | a batch that fails after more events were queued goes back in front of them, so the queue reads as if no flush had happened |
| Delivery.Outbox.constructor | src/node/recommend-sdk-node.cjs:61 | an empty queue with empty ledgers |
| Delivery.Outbox.Flush | dist/browser/recommend-sdk.mjs:465-503 | an empty queue gives nothing; otherwise the head batch leaves the queue. It is delivered when a requested beacon accepts it and in flight otherwise. No event is lost |
| Delivery.Outbox.Enqueue | dist/browser/recommend-sdk.mjs:458-464 | the event is appended; when the length reaches `batchSize`, the head batch is posted at once; the invariant is kept |
| Delivery.Outbox.SendNow | dist/browser/recommend-sdk.mjs:471-477 | `_sendOne` puts the event in flight and leaves the queue alone |
| Delivery.Outbox.Settle | dist/browser/recommend-sdk.mjs:478-490 | on success the events are delivered; on failure they go back at the head of the queue, in their original order (`unshift`); the invariant is kept |
| BrowserSdk.Configured | dist/browser/recommend-sdk.mjs:151-169 | every field of the merged configuration: `domainId` by `\|\| null`; `env`, `channel`, `sdkVersion` and `appVersion` from a truthy option and kept otherwise; `enableLogging` as given; `emitIdentityEvents`, `autoPageView`, `autoRouteTracking`, `journeyMaxLen`, `batchSize` and `flushIntervalMs` from the option when given and kept otherwise; in the bundle also `flushOnRouteChange` and `enableAutoFlush` likewise, and the caller's immediate types merged over the defaults; the source module keeps its own `flushOnRouteChange`, `enableAutoFlush` and immediate types |
| BrowserSdk.AutoFlushOffByDefault | dist/browser/recommend-sdk.mjs:373-381 | the bundle's periodic flush stays off unless `enableAutoFlush: true` is given; its defaults are a batch of 20 and a journey of 100 |
| BrowserSdk.EventCarriesPriorJourney | src/browser/recommend-sdk.module.js:463-471 | an event carries the journey as it was before its own entry; the journey afterwards is that snapshot plus the entry, trimmed, and ends with the entry |
| BrowserSdk.RecommendContext | dist/browser/recommend-sdk.mjs:529-532 | the context keeps the caller's keys; `url` and `referrer` fall back to the page URL and `document.referrer \|\| null` when falsy; `journey` is the window |
| BrowserSdk.SetLeavesOtherKeys | src/browser/recommend-sdk.module.js:42-50 | writing one storage key leaves the others as they were, and the storage keys are distinct |
| BrowserSdk.RecommendSdk.constructor | dist/browser/recommend-sdk.mjs:84-131 | the defaults of each build: not initialized, no identity, an empty journey and queue |
| BrowserSdk.RecommendSdk.PushJourney | src/browser/recommend-sdk.module.js:405-410 | the journey becomes the window of the old journey plus the entry |
| BrowserSdk.RecommendSdk.Record | dist/browser/recommend-sdk.mjs:388-425 | `_baseEvent` with `_withJourney`, then `_pushJourney`: the event carries the prior journey, the current identity and page instance, and a new request id |
| BrowserSdk.RecommendSdk.TrackPageView | dist/browser/recommend-sdk.mjs:426-438 | refused before `init`; the bundle sends directly exactly when `immediate` is given, the source module always queues; the ledgers record the hand-over |
| BrowserSdk.RecommendSdk.TrackEvent | src/browser/recommend-sdk.module.js:463-477 | refused before `init` with nothing changed; sent directly exactly when `SendsImmediately` holds, and queued otherwise |
| BrowserSdk.RecommendSdk.TrackAction | dist/browser/recommend-sdk.mjs:452-457 | an immediate "action" event whose payload names the action |
| BrowserSdk.RecommendSdk.Flush | src/browser/recommend-sdk.module.js:495-501 | nothing on an empty queue; otherwise the first `batchSize` events leave as one batch, by beacon only when asked for and accepted; a beaconed batch is delivered at once, a posted one is in flight |
| BrowserSdk.RecommendSdk.SetUserId | dist/browser/recommend-sdk.mjs:237-242 | the slot holds `v \|\| null` and `localStorage` mirrors it (set or removed) |
| BrowserSdk.RecommendSdk.SetAnonymousId | dist/browser/recommend-sdk.mjs:243-248 | as `setUserId`, for the anonymous id |
| BrowserSdk.RecommendSdk.SetSessionId | dist/browser/recommend-sdk.mjs:249-254 | as `setUserId`, mirrored to `sessionStorage` |
| BrowserSdk.RecommendSdk.SetClientId | dist/browser/recommend-sdk.mjs:255-257 | the slot only, with no store |
| BrowserSdk.RecommendSdk.SetDeviceId | dist/browser/recommend-sdk.mjs:258-263 | as `setUserId`, for the device id |
| BrowserSdk.RecommendSdk.SetAppInstanceId | dist/browser/recommend-sdk.mjs:264-269 | as `setUserId`, for the app-instance id |
| BrowserSdk.RecommendSdk.ApplyParams | src/browser/recommend-sdk.module.js:237-242 | the setter calls of `identify` produce `ApplyIdentity` in memory and the matching store contents |
| BrowserSdk.RecommendSdk.ApplyUserParams | dist/browser/recommend-sdk.mjs:215-217 | the user, anonymous and session setters of `identify`, applied only for defined parameters |
| BrowserSdk.RecommendSdk.ApplyDeviceParams | dist/browser/recommend-sdk.mjs:218-220 | the client, device and app-instance setters of `identify` |
| BrowserSdk.RecommendSdk.Identify | src/browser/recommend-sdk.module.js:229-260 | the slots are updated first, whatever follows. With emission on, one immediate "identify" event carries the before and after snapshots; before `init` that emission is refused after the update |
| BrowserSdk.RecommendSdk.Logout | src/browser/recommend-sdk.module.js:302-331 | the "logout" event goes first, with the user still set. Then the user is cleared, and the session and page are renewed unless `resetSession` is false; the anonymous id is renewed only on request. Before `init`, an emitting logout is refused with nothing changed |
| BrowserSdk.RecommendSdk.ClearIdentity | dist/browser/recommend-sdk.mjs:292-299 | the identity half of `logout`: `LoggedOut` holds |
| BrowserSdk.RecommendSdk.RenewSession | src/browser/recommend-sdk.module.js:323-327 | a new "sess_" id, stored in `sessionStorage`, and a new "page_" instance id, each different from before |
| BrowserSdk.RecommendSdk.RotateAnonymousId | src/browser/recommend-sdk.module.js:328-330 | a new "anon_" id, stored in `localStorage`; the other slots are kept |
| BrowserSdk.RecommendSdk.Start | dist/browser/recommend-sdk.mjs:193-197 | initialized; the timer (gated in the bundle), listeners and hooks as configured; the first page view when `autoPageView` is on, and the books untouched when it is off |
| BrowserSdk.RecommendSdk.ResolveSlots | dist/browser/recommend-sdk.mjs:170-191 | in source order, each slot is taken from its option, then its store, then a new id (anonymous, session and device ids), or else null (user, client and app-instance ids), with the store writes made along the way |
| BrowserSdk.RecommendSdk.ResolveIds | src/browser/recommend-sdk.module.js:181-210 | `SlotsResolved` holds for the stores as found, and the page instance id is new |
| BrowserSdk.RecommendSdk.NewPageId | dist/browser/recommend-sdk.mjs:192 | a new "page_" id that differs from the previous one |
| BrowserSdk.RecommendSdk.Configure | src/browser/recommend-sdk.module.js:164-210 | the configuration is the options applied over the previous configuration, `SlotsResolved` holds for the stores as found, and the page instance id is new |
| BrowserSdk.RecommendSdk.Setup | src/browser/recommend-sdk.module.js:164-217 | the configuration is the options applied over the defaults, the slots are resolved, and the object is started |
| BrowserSdk.RecommendSdk.Init | dist/browser/recommend-sdk.mjs:132-206 | a second call changes nothing. In the bundle, an `apiUrl` already configured is kept and the object only starts. An endpoint that does not resolve is refused with nothing changed. Otherwise `Setup` runs |
| BrowserSdk.RecommendSdk.OnRouteChange | dist/browser/recommend-sdk.mjs:322-338 | the source module always starts a new page and queues its page view. The bundle flushes a non-empty queue when `flushOnRouteChange` is set, and starts a new page only for a path other than "", missing or "/" (or when reading the path throws), sending that page view on its own. The ledgers move by the flush (`FlushedBy`) and then by the page view's hand-over (`Handed`) |
| BrowserSdk.RecommendSdk.NewPage | src/browser/recommend-sdk.module.js:358-362 | a new page instance id followed by a page view, which is direct in the bundle and queued in the source module |
| BrowserSdk.RecommendSdk.OnTimerTick | src/browser/recommend-sdk.module.js:397-403 | while the timer runs, a non-empty queue posts its head batch; otherwise nothing changes |
| BrowserSdk.RecommendSdk.OnLifecycle | dist/browser/recommend-sdk.mjs:301-317 | `pagehide`, `beforeunload` or a hidden `visibilitychange` flushes by beacon first (an accepted beacon delivers the batch, otherwise it is posted and in flight); an empty queue or a visible `visibilitychange` leaves the books as they were |
| BrowserSdk.RecommendSdk.Recommend | src/browser/recommend-sdk.module.js:564-602 | refused before `init`; otherwise the request is `RecommendBody` over the configured `domainId`, slots and channel, so each of the six identity fields follows the `!== undefined` rule; the context is completed with the page URL, referrer and journey, which is the whole journey when it is within bounds |
| NodeSdk.NodeConfigured | src/node/recommend-sdk-node.cjs:100-112 | the option rules of Node `init`: `domainId` by `\|\| null`; `env`, `channel`, `sdkVersion` and `appVersion` from a truthy option and kept otherwise; `enableLogging` as given; `emitIdentityEvents`, `batchSize` and `flushIntervalMs` from the option when given and kept otherwise; the immediate types are never changed by options |
| NodeSdk.NodeBaseEvent | src/node/recommend-sdk-node.cjs:191-214 | field by field (`domainId` and the six identity slots): a given option, null included, is used, and an `undefined` one leaves the configured value; page instance, canonical page key, referrer, user agent, channel and timestamp come from the option when truthy, and are null (or the configured channel, or the current time) otherwise |
| NodeSdk.PlainOptionsCarryConfiguredIds | dist/node/recommend-sdk-node.js:155-178 | without overrides the event carries exactly the configured identity, domain and current time |
| NodeSdk.IdentityEventOptions | src/node/recommend-sdk-node.cjs:152 | `{ ...options, immediate: true, url: options.url \|\| "" }` changes only those two keys |
| NodeSdk.NodeRecommendBody | src/node/recommend-sdk-node.cjs:291-300 | field by field (`domainId`, `userId`, `anonymousId`, `clientId`, `deviceId`, `appInstanceId`): a given parameter, null included, is used, and an `undefined` one leaves the configured value; the channel by `\|\|`; the context passed through |
| NodeSdk.RecommendSdkNode.constructor | dist/node/recommend-sdk-node.js:38-65 | the Node defaults: a batch of 50, only "action" immediate, no identity |
| NodeSdk.RecommendSdkNode.Init | src/node/recommend-sdk-node.cjs:88-123 | a second call changes nothing, and an unresolved endpoint is refused with nothing changed. Otherwise each slot is the option, else the slot already held, else a new id (anonymous and session) or null, and the timer runs |
| NodeSdk.RecommendSdkNode.TrackEvent | src/node/recommend-sdk-node.cjs:216-228 | refused before `init`; sent on its own exactly when `SendsImmediately` holds, and queued otherwise; the ledgers record the hand-over |
| NodeSdk.RecommendSdkNode.TrackAction | src/node/recommend-sdk-node.cjs:230-235 | an immediate "action" event whose payload names the action |
| NodeSdk.RecommendSdkNode.Identify | src/node/recommend-sdk-node.cjs:125-155 | the slots are updated by `ApplyIdentity`; with emission on, one immediate "identify" event with the before and after snapshots, and before `init` a refusal after the update |
| NodeSdk.RecommendSdkNode.Logout | src/node/recommend-sdk-node.cjs:162-189 | the event goes first, then the user is cleared. The session is renewed unless `resetSession` is false, and the anonymous id is renewed on request; other slots are kept, and there is no page instance |
| NodeSdk.RecommendSdkNode.Flush | src/node/recommend-sdk-node.cjs:244-248 | the head batch is posted from a non-empty queue; nothing happens on an empty one |
| NodeSdk.RecommendSdkNode.OnTimerTick | src/node/recommend-sdk-node.cjs:311-316 | while the timer runs, a `flush()` |
| NodeSdk.RecommendSdkNode.Recommend | src/node/recommend-sdk-node.cjs:286-300 | refused before `init`; otherwise `NodeRecommendBody` over the current configuration and slots |
| Scenarios.FailedBatchComesBackFirst | dist/browser/recommend-sdk.mjs:465-521 | queue a, b, c; flush; queue d; the batch fails; the queue is a, b, c, d |
| Scenarios.QueueFlushesAtBatchSize | dist/browser/recommend-sdk.mjs:458-464 | with a batch size of 2, the first event waits and the second posts both |
| Scenarios.FailedSendRequeuesAtHead | dist/browser/recommend-sdk.mjs:471-490 | a single event whose send fails goes in front of what was waiting |
| Scenarios.PurchaseIsImmediateInTheBundleOnly | dist/browser/recommend-sdk.mjs:122-130 | a "purchase" event skips the queue in the bundle and is queued by the source module |
| Scenarios.LogoutWithDefaults | dist/browser/recommend-sdk.mjs:276-300 | after `identify` and a `logout()` with no options, the logout event carries the logged-in user; then the user is gone, the anonymous id stays, and the session (also stored) and the page are new |
| Scenarios.JourneyKeepsNewest | src/browser/recommend-sdk.module.js:405-410 | with `journeyMaxLen: 2`, three tracked events leave the last two, oldest first |
| Scenarios.NodeIdentifyBeforeInitIsKept | src/node/recommend-sdk-node.cjs:114-116 | a user set before `init` survives `init`, and an anonymous id exists |
| Scenarios.NodeIdentifyBeforeInitFailsLate | src/node/recommend-sdk-node.cjs:133-153 | an emitting `identify` before `init` is refused, but the user is already set |
| Scenarios.NodeIdentifyThenClear | src/node/recommend-sdk-node.cjs:133 | `identify({ userId: null })` clears the user |
| Scenarios.NodeSecondInitIsIgnored | src/node/recommend-sdk-node.cjs:88-92 | a second `init` keeps the first call's channel |
| Scenarios.NodeOverrideByNull | src/node/recommend-sdk-node.cjs:196 | a `userId: null` option clears the event's user, while an omitted option keeps the configured one |
| Scenarios.NodeInheritedNameIsQueued | src/node/recommend-sdk-node.cjs:222-223 | with the corrected lookup, an event called "toString" is queued |

## Left out

- Network I/O. `fetch`, JSON encoding, HTTP status handling and the promise chains are not modelled. Each send is a hand-over to the transport, and the answer arrives later through `Outbox.Settle(events, ok)`.
- `Delivery.Outbox.Settle`: `ok` stands for the whole promise chain, `res.json()` included. A 2xx reply whose body is not JSON (a 204, say) ends in the `catch`, so events the server already accepted go back to the queue and are sent again (src/browser/recommend-sdk.module.js:549-557, src/node/recommend-sdk-node.cjs:277-280). The ledger invariant counts them once; it does not promise at-most-once delivery at the server.
- `recommend`'s response. It is modelled up to the request it posts. What the server returns is outside the model. In Node, `recommend` also rethrows a non-OK response; that is left out too.
- Timers, event listeners and the patching of `history.pushState` and `history.replaceState`. They are flags (`timerRunning`, `lifecycleHooked`, `routeHooked`). Their callbacks are the methods `OnTimerTick`, `OnLifecycle` and `OnRouteChange`. `flushIntervalMs` is kept in the configuration but no clock is modelled.
- The logger (`createLogger`, `enableLogging` output). It has no effect on state.
- `nowIso()`, `crypto.randomUUID` and `Math.random`. They are inputs: a timestamp parameter and the `IdOracle`. The oracle only promises that the ids are new and carry their prefix, not their format.
- `decodeURIComponent` on the `_ga` value is taken as the identity. A malformed escape, which would throw and give null, is not modelled.
- Exceptions thrown by storage writes, which `safeSet` and `safeRemove` swallow. A store is either present (`Available`) or missing.
- Mutation of caller objects. `recommend` writes into the caller's `context` object, and events keep a reference to the caller's payload. The model builds new values instead.
- Option values of the wrong type. A non-string id or URL is not modelled. A non-boolean or non-number flag counts as not given.
- Non-integer and negative numbers. `journeyMaxLen`, `batchSize` and `flushIntervalMs` are natural numbers here. The source accepts any number: with `journeyMaxLen: 2.5`, say, `splice(0, 0.5)` removes nothing, so the journey keeps three entries. Such values are not modelled.
- `BrowserSdk.RecommendSdk.Init`: requires `journeyMaxLen` and `batchSize` of at least 1 when given. With 0 the source drops every journey entry or flushes on every event. Both are excluded.
- `NodeSdk.RecommendSdkNode.Init`: requires `batchSize` of at least 1 when given, for the same reason.
- `Endpoint.ResolveApiUrl`: environment names that are inherited members of `Object.prototype` are not modelled. The built-in table is taken as a map of own keys only.
- The identity slots are a separate `ids` field rather than part of `config`. The split is a matter of layout only; the values are the same.
- `BrowserSdk.RecommendSdk.ResolveSlots` reads each stored key before the writes made earlier in `init`. Its writes touch only the key of the slot just resolved, and all the keys are distinct (`SetLeavesOtherKeys`), so this reads the same values the source does.
- `FreshIds.IdOracle.RandomId` also avoids the identifiers the object currently holds. A random UUID collides with them only with negligible probability.
- The `version` property of both objects is a constant and is not modelled.

## Findings

| source | as written | input that shows it | evidently intended | confidence | as-written member | corrected member |
|---|---|---|---|---|---|---|
| src/node/recommend-sdk-node.cjs:222-223 | `immediateEventTypes[ev.eventType]` is a plain object property lookup, so it also finds members inherited from `Object.prototype`; both browser files have the same lookup in `trackEvent` | `trackEvent("toString")`, or "constructor", "valueOf" and so on: the lookup yields a function, which is truthy, so the event is sent on its own instead of being queued | only the table's own keys whose value is true make an event immediate | not executed | Events.InheritedNamesLookImmediate | Events.SendsImmediately |
