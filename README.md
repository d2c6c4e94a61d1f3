# Emergency-response app: verified model of its decision logic

This project models, in Dafny, the parts of the emergency-response web app
that make decisions, and proves what they promise:

- **Fall detector** (`fall_detection.dfy`). The accelerometer demo's
  `checkFallDetection` and its freefall timeout form a two-variable state
  machine over `isFalling` and the pending `fallTimer`. A sample below 0.5 g
  opens a 1000 ms freefall window. A sample above 3.5 g inside the window is
  a fall. Both the fall and the timeout close the window. The class
  `FallDetector` keeps the two variables; the function `Observe` specifies one
  sample. The proofs cover: a fall is reported exactly on an impact while
  falling; the window is never re-armed; the timer is pending exactly while
  falling; there is at most one fall per freefall episode. The third branch
  (the "settled" reset) compares the g value with `0.8 * G_VALUE ..
  1.2 * G_VALUE`. That band lies above the impact threshold, which is tested
  first, so the branch can never run: `BranchOf` proves it and the model keeps
  the branch as written.
- **Nearest-AED resolver** (`aed_helper.dfy`). `loadAEDData` memoises the
  GeoJSON dataset in a module cache (class `AedIndex`). `findNearestAEDs`
  maps every feature to a record with defaulted fields, stable-sorts by
  distance and keeps the first `count` (default 5). Proved: the answer is
  sorted; it has the length `slice` gives; it is drawn from the dataset; every
  record left out is at least as far as every record returned; ties keep
  dataset order. GeoJSON positions are read as `[longitude, latitude]`
  (section 3.1.1 of RFC 7946).
- **CPR hands-on timer** (`cpr_timer.dfy`). A 20 s compressions phase and a
  6 s breaths phase repeat cyclically. Proved: each tick keeps the invariant;
  the cycle counter advances exactly when the phase wraps to compressions; the
  timer is periodic, since 26 ticks from any state return to it with exactly
  one more cycle; the progress value computed for the (currently commented-out)
  progress bar stays in [0, 100).
- **Service worker** (`service_worker.dfy`). A push message becomes a
  notification with defaults for every missing field; a body that is not
  JSON, or is JSON null, shows none. Its tag is the
  message's `emergencyId`, so repeated alerts for one incident coalesce. A
  click closes the notification, then focuses the first window client whose
  URL is exactly the origin string and that has `focus`, or else opens
  `/main` when `openWindow` exists.
- **VAPID key decoding** (`push_key.dfy`). The key is padded to a multiple of
  four, mapped from the URL-safe base64 alphabet (section 5 of RFC 4648) to
  the standard one (section 4), decoded by `atob`, and its character codes are
  copied into a `Uint8Array` by a loop.
- **Push hook** (`push_notifications.dfy`). The `subscribe`, `unsubscribe`
  and `toggle` actions of `usePushNotifications` update the hook's state
  cells. `subscribe` and `unsubscribe` have guards; `toggle` has none. Each
  runs a chain of steps in which the first to fail decides the error, and a
  failure leaves the state unchanged.
- **Subscription collection** (`push_subscription.dfy`). The schema's
  required fields, its defaults and the unique compound index on
  `(userId, endpoint)` define a collection keyed by that pair. An insert
  validates the document, fills the defaults and is refused on a taken pair.

`js_values.dfy` holds the shared `Option`/`Attempt` types and the
JavaScript `v || fallback` idiom for optional strings.

Three details of the code that the model follows as written:

- The settled test compares the g-converted value with 0.8·G_VALUE to
  1.2·G_VALUE, not the raw magnitude, so it can never hold.
- The click handler compares `client.url === self.location.origin` as
  exact strings. A window's serialized URL always carries a path (at least
  "/") and the origin carries none, so for real windows the focus branch
  does not fire and a click opens `/main`. `Focusable` keeps the exact test.
- The schema declares only a unique index on `(userId, endpoint)`, and
  nothing upserts, so a second insert for a pair is refused.

## Model

| member | source | states |
|---|---|---|
| FallDetection.BranchOf | sandbox/Dom_stuff/accelerometer-demo/app.js:58-98 | the freefall branch is taken exactly below 0.5 g, the impact branch exactly on > 3.5 g while falling, and the settled branch never |
| FallDetection.Observe | sandbox/Dom_stuff/accelerometer-demo/app.js:40-99 | a fall is reported iff falling and > 3.5 g, and then the state is idle with the timer cleared; entering freefall arms a timer where none was pending; a further freefall sample neither re-arms nor extends the window; 0.5..3.5 g changes nothing; timer-pending-iff-falling is preserved |
| FallDetection.Expire | sandbox/Dom_stuff/accelerometer-demo/app.js:64-67 | a pending timeout clears isFalling; afterwards the detector is not falling |
| FallDetection.Run | sandbox/Dom_stuff/accelerometer-demo/app.js:40-99 | over any sequence of samples and timeouts there is one report per event and timer-pending-iff-falling holds throughout |
| FallDetection.FallNeedsFreefall | sandbox/Dom_stuff/accelerometer-demo/app.js:58-78 | from a non-falling state a fall is reported only after a freefall reading |
| FallDetection.AtMostOneFallPerEpisode | sandbox/Dom_stuff/accelerometer-demo/app.js:58-78 | between any two reported falls there is a fresh freefall reading |
| FallDetection.QuietWithoutFreefall | sandbox/Dom_stuff/accelerometer-demo/app.js:58-98 | without a freefall reading an idle detector stays idle and reports nothing |
| FallDetection.FallDetector.constructor | sandbox/Dom_stuff/accelerometer-demo/app.js:6-7 | the detector starts not falling, with no timer |
| FallDetection.FallDetector.CheckFallDetection | sandbox/Dom_stuff/accelerometer-demo/app.js:40-99 | updates isFalling and the timer, and reports a fall, exactly as Observe specifies; keeps timer-pending-iff-falling |
| FallDetection.FallDetector.FreefallTimeout | sandbox/Dom_stuff/accelerometer-demo/app.js:64-67 | the timeout callback leaves the detector not falling, as Expire specifies |
| AedHelper.ToRecord | server/Socket/AEDHelper.js:48-66 | latitude is coordinates[1] and longitude coordinates[0]; distance is measured from the query point to them; each present non-empty property is copied as is, and each absent or empty one becomes "No description available", "N/A" or null; description and floor level are never empty |
| AedHelper.ToRecords | server/Socket/AEDHelper.js:47-67 | one record per feature, in dataset order |
| AedHelper.Insert | server/Socket/AEDHelper.js:68 | inserting into a distance-sorted list keeps it sorted and adds exactly the one record |
| AedHelper.SortByDistance | server/Socket/AEDHelper.js:68 | the sorted records are ordered by distance and are a permutation of the input |
| AedHelper.InsertKeepsTies | server/Socket/AEDHelper.js:68 | the inserted record goes before every record already at its distance |
| AedHelper.SortKeepsTies | server/Socket/AEDHelper.js:68 | the sort is stable: records at the same distance keep their input order |
| AedHelper.SliceEnd | server/Socket/AEDHelper.js:69 | `slice(0, count)` keeps min(count, n) records, and for a negative count all but the last -count |
| AedHelper.Ranked | server/Socket/AEDHelper.js:47-68 | the mapped records, sorted by distance, as a permutation |
| AedHelper.FindNearest | server/Socket/AEDHelper.js:40-72 | no data or no features gives []; otherwise the length is what slice gives for count (default 5), and the answer is sorted by distance |
| AedHelper.PrefixIsNearest | server/Socket/AEDHelper.js:68-69 | what the cut leaves out of a sorted list is no nearer than what it keeps |
| AedHelper.FindNearestIsNearest | server/Socket/AEDHelper.js:47-69 | the answer is drawn from the dataset's records, and every record left out is at least as far as every record returned |
| AedHelper.AtDistanceAppend | server/Socket/AEDHelper.js:68 | picking the records at one distance distributes over concatenation |
| AedHelper.FindNearestKeepsTies | server/Socket/AEDHelper.js:68-69 | for each distance, the records returned at it are the first ones of the dataset at it |
| AedHelper.Load | server/Socket/AEDHelper.js:7-20 | a cached document is returned without reading; a returned document is the cached one; on a miss the parsed document is cached, and it is returned only if it has features |
| AedHelper.LoadIsMemoised | server/Socket/AEDHelper.js:8 | once a document is cached, every later load returns it whatever the file reads as, and queries stop depending on the file |
| AedHelper.AedIndex.constructor | server/Socket/AEDHelper.js:4 | the cache starts empty |
| AedHelper.AedIndex.LoadAedData | server/Socket/AEDHelper.js:7-20 | updates the cache and returns as Load specifies |
| AedHelper.AedIndex.FindNearestAeds | server/Socket/AEDHelper.js:40-72 | loads through the cache, then answers as FindNearest specifies |
| CprTimer.Tick | client/src/components/app/ActionGuideDrawer.jsx:69-83 | above 1 s left a tick counts down in the same phase; otherwise it moves to the next phase cyclically with that phase's full duration; it wraps exactly when the next phase is the first; it keeps the invariant 0 <= phaseIndex < 2, 1 <= remaining <= duration |
| CprTimer.CyclePosition | client/src/components/app/ActionGuideDrawer.jsx:5-16 | the seconds since the start of the cycle are below 26 |
| CprTimer.PositionDeterminesState | client/src/components/app/ActionGuideDrawer.jsx:5-16 | two valid states at the same position in the cycle are equal |
| CprTimer.TickAdvances | client/src/components/app/ActionGuideDrawer.jsx:69-83 | a tick advances the position by one modulo 26, and wraps exactly from position 25 |
| CprTimer.Ticks | client/src/components/app/ActionGuideDrawer.jsx:69-83 | any number of ticks keeps the invariant |
| CprTimer.TicksAdvance | client/src/components/app/ActionGuideDrawer.jsx:69-83 | after n ticks the position is (p + n) mod 26 and (p + n) div 26 cycles were completed |
| CprTimer.FullCycles | client/src/components/app/ActionGuideDrawer.jsx:69-83 | k·26 ticks from any valid state, {0, 20} included, return to it and complete exactly k cycles: the timer is periodic with period 26 s |
| CprTimer.ProgressValue | client/src/components/app/ActionGuideDrawer.jsx:89-91 | the progress is in [0, 100) and 0 at the start of a phase |
| CprTimer.CprTimerComponent.constructor | client/src/components/app/ActionGuideDrawer.jsx:58-63 | starts at phase 0 with 20 s, cycle 1, not running |
| CprTimer.CprTimerComponent.IntervalTick | client/src/components/app/ActionGuideDrawer.jsx:65-87 | while running, a tick moves the state as Tick specifies and adds one cycle exactly on a wrap; while not running nothing changes |
| CprTimer.CprTimerComponent.SetRunning | client/src/components/app/ActionGuideDrawer.jsx:63 | sets running and nothing else |
| CprTimer.CprTimerComponent.HandleReset | client/src/components/app/ActionGuideDrawer.jsx:93-97 | reset gives not running, cycle 1, phase 0 with 20 s |
| ServiceWorker.NotificationTag | client/public/serviceworker.js:15 | the tag is the non-empty emergencyId when there is one, else "emergency"; never empty |
| ServiceWorker.BuildNotification | client/public/serviceworker.js:9-16 | each present non-empty title, body, icon and badge is shown as sent, and each absent or empty one becomes "Emergency Alert", "You have a new emergency alert" or "/vite.svg"; absent data becomes {}; the tag is NotificationTag of the payload; nothing shown is blank; requireInteraction is false only for an explicit false |
| ServiceWorker.OnPush | client/public/serviceworker.js:1-20 | a push without data shows the all-defaults notification; a body that is not JSON, or is JSON null, shows nothing; a JSON payload shows BuildNotification of it |
| ServiceWorker.SameIncidentCoalesces | client/public/serviceworker.js:15 | two alerts share a tag exactly when they carry the same emergencyId |
| ServiceWorker.FirstFocusable | client/public/serviceworker.js:29-33 | finds the first client whose URL equals the origin string exactly and that can be focused, or reports that there is none |
| ServiceWorker.RouteClick | client/public/serviceworker.js:27-38 | focuses the first client whose URL equals the origin string and that can be focused; if there is none, opens "/main" when openWindow exists and otherwise does nothing; never a second close |
| ServiceWorker.HandleClick | client/public/serviceworker.js:22-40 | the notification is closed first, then exactly RouteClick's action follows, if any; with no window at the origin and openWindow available, that is opening "/main" |
| PushKey.PaddingLength | client/src/hooks/usePushNotifications.js:7 | the padding is 0..3 characters, makes the length a multiple of 4, and is 0 exactly when it already is |
| PushKey.Repeat | client/src/hooks/usePushNotifications.js:7 | `"=".repeat(n)` is n copies of the character |
| PushKey.Pad | client/src/hooks/usePushNotifications.js:7 | the padded key starts with the key, ends with at most three '=', and its length is a multiple of 4 |
| PushKey.ReplaceAll | client/src/hooks/usePushNotifications.js:8 | a global replace keeps the length and changes exactly the matching characters |
| PushKey.Normalize | client/src/hooks/usePushNotifications.js:7-8 | the string given to atob has the padded length, maps '-' to '+' and '_' to '/', leaves every other character unchanged, and contains no '-' or '_' |
| PushKey.NormalizeRoundTrip | client/src/hooks/usePushNotifications.js:8 | for a key in the URL-safe alphabet, mapping back recovers the padded key |
| PushKey.CharCodes | client/src/hooks/usePushNotifications.js:10-13 | one byte per decoded character, equal to its code when the code is below 256 |
| PushKey.CopyCharCodes | client/src/hooks/usePushNotifications.js:10-13 | the loop fills a new array of the decoded length with the character codes, taken modulo 256 |
| PushKey.UrlBase64ToUint8Array | client/src/hooks/usePushNotifications.js:6-15 | atob is given the normalised key; its error propagates; otherwise the array holds the decoded string's character codes |
| PushNotifications.Rejected | client/src/hooks/usePushNotifications.js:98 | a refused response reports the server's non-empty message, and otherwise exactly the fallback; the error is never empty |
| PushNotifications.SubscribeSteps | client/src/hooks/usePushNotifications.js:55-103 | a subscription is obtained exactly when permission is granted and registration, key decoding, the push manager and the server all succeed; otherwise the first step to fail decides the error: refused permission gives "Notification permission denied", a throw from registration, key decoding, the push manager or the server call gives its message, and a server refusal gives Rejected's message with fallback "Failed to subscribe" |
| PushNotifications.PushNotificationsHook.constructor | client/src/hooks/usePushNotifications.js:19-22 | the hook starts unsupported, unsubscribed, with no subscription and no key |
| PushNotifications.PushNotificationsHook.DetectSupport | client/src/hooks/usePushNotifications.js:25-33 | push is supported when service workers, PushManager and Notification all exist |
| PushNotifications.PushNotificationsHook.ReceiveVapidKey | client/src/hooks/usePushNotifications.js:36-47 | with an access token, a non-empty fetched key is kept; otherwise the key is unchanged |
| PushNotifications.PushNotificationsHook.Subscribe | client/src/hooks/usePushNotifications.js:50-104 | unsupported, no key or no token gives `{success:false}` with no change; otherwise success exactly when SubscribeSteps obtains a subscription, which is then stored with isSubscribed true; every failure leaves the state unchanged |
| PushNotifications.PushNotificationsHook.Unsubscribe | client/src/hooks/usePushNotifications.js:107-129 | no subscription gives "No active subscription"; success exactly when the browser and the server both succeed, and then the subscription is cleared; a throw from `subscription.unsubscribe()` or from the server call is reported with its message, a server refusal as Rejected with fallback "Failed to unsubscribe"; a failure changes nothing |
| PushNotifications.PushNotificationsHook.Toggle | client/src/hooks/usePushNotifications.js:132-145 | no guard; on a successful response isSubscribed becomes the requested value; a throw is reported with its message and a refusal as Rejected with fallback "Failed to toggle"; on failure the state is unchanged |
| PushSubscriptionStore.MissingPaths | server/Models/pushSubscription.js:4-23 | a required path is reported exactly when it is absent, or an empty string |
| PushSubscriptionStore.Validate | server/Models/pushSubscription.js:3-36 | a document is accepted exactly when userId, endpoint, keys.p256dh and keys.auth are present; otherwise every missing path is reported; enabled defaults to true and both timestamps to the creation time |
| PushSubscriptionStore.Insert | server/Models/pushSubscription.js:39 | an invalid document is refused with Validate's ValidationError and its failing paths; a valid document whose (userId, endpoint) is taken is refused as a duplicate; every refusal leaves the collection unchanged; a success adds exactly the new record under its pair; records stay filed under their own pair |
| PushSubscriptionStore.DuplicatePairRefused | server/Models/pushSubscription.js:39 | inserting a second document for a stored pair fails and keeps the first record |
| PushSubscriptionStore.SameEndpointForTwoUsers | server/Models/pushSubscription.js:39 | the same endpoint can be stored under two different users |
| PushSubscriptionStore.SubscriptionCollection.constructor | server/Models/pushSubscription.js:41 | the collection starts empty |
| PushSubscriptionStore.SubscriptionCollection.Create | server/Models/pushSubscription.js:3-39 | creating a document changes the collection and answers as Insert specifies |

## Left out

- The Haversine formula of `distanceInMeters` (server/Socket/AEDHelper.js:23-37) works on floating-point trigonometry. The model takes the distance as a parameter and assumes nothing about it, so the symmetry of the distance is not stated.
- Reading the dataset file and parsing it as JSON are the parameter `read` of the loader. A parse result that is a falsy primitive counts as a failure, and a truthy one without `features` counts as a document without features. Both agree with what the source then does.
- A feature whose `properties` or `geometry` is null makes the source throw. In the model every feature carries both.
- Property values are modelled as strings. A numeric property such as an `AED_ID` of 0 is not modelled.
- The `count` argument is an integer or absent. A non-integer count and `null` are not modelled.
- Floating-point behaviour is not modelled: reals stand for JavaScript numbers, and NaN distances do not arise.
- In the fall detector the sensor, the permission request, the alert sound and the DOM writes are not modelled. The sample's magnitude `sqrt(x²+y²+z²) / G_VALUE` is an input, so the model does not compute it.
- The timer's 1000 ms duration is not modelled as time. Its expiry is an event that may arrive at any point.
- The drawer's rendering, the guide text and the `setInterval` scheduling are not modelled. React's possible double invocation of the state updater (which would call `setCycleCount` twice) is left out.
- The Start/Pause and Reset buttons are commented out in the shipped markup (client/src/components/app/ActionGuideDrawer.jsx:124-136), so nothing in it starts the timer. The model keeps `handleReset` as written and exposes the `setRunning` setter in place of the Start/Pause button.
- Browser push APIs are parameters given by their results: `Notification.requestPermission`, `serviceWorker.register`, `pushManager.subscribe`, `atob`, `subscription.unsubscribe`, `clients.matchAll`, `clients.openWindow` and the `authRequest` calls. Converting the subscription's keys with `getKey` and `btoa` is folded into the browser subscription value.
- `event.data.json()` is not run: its outcome is the input `PushData` (no data, not JSON, JSON null, or a payload). A JSON value that is neither null nor an object is given as a payload with every field absent. Non-string `data` values and a `requireInteraction` that is not a boolean are not distinguished.
- `showNotification`, `focus()`, `openWindow` and `waitUntil` are not carried out. The model returns the options and actions they would be given.
- Mongoose internals are not modelled: casting of ObjectIds and other types, index building, persistence and automatic `updatedAt` maintenance.
- No server-side subscribe, unsubscribe, toggle or delivery controller is modelled.
- client/src/hooks/useLocalStorage.js and client/src/config.js are not part of this model: they only wrap local storage and choose a URL.
- Concurrency is not modelled: event-loop interleavings and parallel delivery.
