# Sunshine watch sync, modelled in Dafny

This project models the weather sync between the Sunshine handheld app and its
companion watch face, and proves properties of both endpoints.

- **Watch side** (`MyWatchFace.Engine`). The engine asks the handheld for data
  when a nearby peer advertises the weather capability. It stores the icon and
  the two temperature labels of the reply. It also keeps the face's own flags:
  the time-zone receiver registration, ambient mode and anti-aliasing, and the
  one-second update timer. The colon and two-digit time text are drawn from
  simple rules, which are modelled too.
- **Handheld side** (`SunshineWearableService`). The service keeps an
  `isConnected` flag. It answers a `dataReady` message on
  `/wearable/sunwatch/data` by querying the latest forecast. It frames the
  forecast as `[icon, max label, min label]` and sends the result to every
  connected node.

Each endpoint is a class whose fields are the source's flags and stored
values. Each platform call (listener registration, connect and disconnect,
message send, receiver registration, query) is appended to an `effects` log
on that class. Every state-changing method states the class's new fields and
the new log, relative to the old ones. The methods that decode, select a peer
or answer a request are also tied to a pure function that the lemmas reason
about: the watch's `OnMessageReceived` to `Receive`, its
`UpdateConnectionCapability`, `OnCapabilityChanged` and `OnConnected` to
`ReadyEffects`, and the handheld's `GetAllRelevantForecastData`,
`SendDataToSunWatch` and `OnMessageReceived` to `ForecastData`, `SendData` and
`Reaction`. The timer methods are tied to `ShouldTimerBeRunning` and
`TickDelay`, the receiver methods to `ReceiverBalance`, and `OnDraw` to
`ColonVisible` and `TwoDigits`.

Files:

- `wrappers.dfy`: `Option`, standing for Java's null.
- `wire.dfy`: what both endpoints share. This is the data path, the ready
  token, the message shape and the list framing with both round trips.
- `sunwatch.dfy`: the watch engine, with its pure rules and the `Engine` class.
- `sunshine_wearable.dfy`: the handheld listener and the `WearableService`
  class.
- `handshake.dfy`: lemmas that connect the two endpoints.

In four places the protocol's evident intent and the code part ways; the
model follows the code:

- **Decoding is not all-or-nothing.** The protocol is meant to leave the shown
  weather alone on a malformed reply; the code instead assigns the icon first
  (`MyWatchFace.java:454`), then the raw max label, then the min label. Only
  `IOException` and `ClassNotFoundException` are caught. So an empty list throws
  before any field is written; a first element that is not an image stores a
  null icon and throws; a list of one or two elements stores the icon (and the
  raw max label) and then throws. `Receive` models each case, and
  `IconStoredBeforeLabels` shows it for a list that holds only an image.
- **An empty result still sends.** The handheld is meant to stay silent when it
  has no forecast; the code instead returns null from
  `getAllRelevantForecastData`, and `sendDataToSunWatch` sends that null body
  to every connected node (`AbsentPayloadIsSent`).
- **Replies go to every node.** The reply is meant to go back to the
  requester; the code instead sends it to every connected node
  (`ReplyMessages`).
- **The watch never reconnects.** Hiding the face disconnects the client. The
  client is connected again only in `onCreate`, so it stays disconnected after
  the face is shown again.

## Model

| member | source | states |
|---|---|---|
| `Wire.SerializeRoundTrip` | app/src/main/java/com/example/android/sunshine/app/sync/SunshineWearableService.java:134-144 | reading back a written list of byte arrays gives the same list, whatever bytes follow it, since `readObject` reads one object and ignores the rest |
| `SunWatch.FirstNearby` | sunwatch/src/main/java/com/example/android/sunshine/app/MyWatchFace.java:486-491 | no node is chosen iff no node is nearby; a chosen node is nearby, and every node before it is not |
| `SunWatch.PeerSelection` | sunwatch/src/main/java/com/example/android/sunshine/app/MyWatchFace.java:480-508 | an empty snapshot, or one without a nearby node, sends nothing; otherwise exactly one `dataReady` message on the data path goes to the first nearby node |
| `SunWatch.ShouldTimerBeRunning` | sunwatch/src/main/java/com/example/android/sunshine/app/MyWatchFace.java:399-401 | the tick timer runs exactly while the face is visible and not in ambient mode; the engine invariant ties the queued tick to it |
| `SunWatch.JavaRem` | sunwatch/src/main/java/com/example/android/sunshine/app/MyWatchFace.java:410-411 | Java's `%` on `long`: the dividend is the truncated quotient times the divisor plus the remainder, and the remainder lies in `[0, b)` for a non-negative dividend and in `(-b, 0]` for a negative one |
| `SunWatch.TickDelay` | sunwatch/src/main/java/com/example/android/sunshine/app/MyWatchFace.java:406-414 | the time plus the delay is a whole second; for a time after the epoch the delay lies in `[1, 1000]` |
| `SunWatch.TickDelayIsNextSecond` | sunwatch/src/main/java/com/example/android/sunshine/app/MyWatchFace.java:409-412 | no whole second lies strictly between now and the tick, so the tick is the next second |
| `SunWatch.ColonBlinks` | sunwatch/src/main/java/com/example/android/sunshine/app/MyWatchFace.java:343 | in ambient mode the colon is always shown; in interactive mode it is shown and hidden on alternate seconds |
| `SunWatch.TwoDigits` | sunwatch/src/main/java/com/example/android/sunshine/app/MyWatchFace.java:355-362 | `%02d` of a field in `0..99` is exactly two decimal digits that read back as the field |
| `SunWatch.Receive` | sunwatch/src/main/java/com/example/android/sunshine/app/MyWatchFace.java:444-478 | another path leaves the weather unchanged; a caught stream error changes nothing; the reply is applied iff it reads as at least three arrays with an image first, and then the labels are the second and third arrays each with a leading space; the min label never changes except on a complete reply |
| `SunWatch.ReadyTokenIsNotAReply` | sunwatch/src/main/java/com/example/android/sunshine/app/MyWatchFace.java:446-452 | a `dataReady` body arriving on the data path does not read as a list, so it is caught and changes nothing |
| `SunWatch.IconStoredBeforeLabels` | sunwatch/src/main/java/com/example/android/sunshine/app/MyWatchFace.java:452-458 | a one-element list holding an image replaces the icon, keeps the old labels and ends in an uncaught exception, so decoding is not all-or-nothing |
| `SunWatch.Engine.constructor` | sunwatch/src/main/java/com/example/android/sunshine/app/MyWatchFace.java:167-209 | the face starts invisible, interactive and unregistered, with anti-aliased text, no queued tick and no weather; the client starts connecting |
| `SunWatch.Engine.OnPropertiesChanged` | sunwatch/src/main/java/com/example/android/sunshine/app/MyWatchFace.java:283-287 | the low-bit-ambient flag takes the display's value |
| `SunWatch.Engine.RegisterReceiver` | sunwatch/src/main/java/com/example/android/sunshine/app/MyWatchFace.java:250-257 | registers the time-zone receiver only when it is not registered yet; afterwards exactly one registration is outstanding |
| `SunWatch.Engine.UnregisterReceiver` | sunwatch/src/main/java/com/example/android/sunshine/app/MyWatchFace.java:259-265 | unregisters only when registered, otherwise does nothing; afterwards no registration is outstanding |
| `SunWatch.Engine.UpdateTimer` | sunwatch/src/main/java/com/example/android/sunshine/app/MyWatchFace.java:388-401 | drops every queued tick, then queues one immediate tick exactly when the face is visible and not in ambient mode |
| `SunWatch.Engine.OnVisibilityChanged` | sunwatch/src/main/java/com/example/android/sunshine/app/MyWatchFace.java:225-248 | when shown, the receiver is registered once; when hidden, it is unregistered and, only if the client is connected, both listeners are removed and the client disconnects; any queued tick is dropped and one immediate tick is queued exactly when the face is now visible and interactive; the engine invariant is kept |
| `SunWatch.Engine.RemoveListenersAndDisconnect` | sunwatch/src/main/java/com/example/android/sunshine/app/MyWatchFace.java:238-242 | removes the capability and message listeners, then disconnects the client |
| `SunWatch.Engine.OnAmbientModeChanged` | sunwatch/src/main/java/com/example/android/sunshine/app/MyWatchFace.java:295-311 | `mAmbient` takes the new mode; the three text paints get anti-aliasing `!inAmbientMode` only when the mode changed and the display is low-bit, otherwise they keep their setting; any queued tick is dropped and one immediate tick is queued exactly when the face is visible and now interactive |
| `SunWatch.Engine.HandleUpdateTimeMessage` | sunwatch/src/main/java/com/example/android/sunshine/app/MyWatchFace.java:406-414 | while the timer should run, queues one tick after `TickDelay(now)`; otherwise queues nothing |
| `SunWatch.Engine.DeliverTick` | sunwatch/src/main/java/com/example/android/sunshine/app/MyWatchFace.java:99-109 | the delivered tick leaves exactly one tick queued for the next second, and the engine invariant (at most one queued tick, queued iff visible and interactive) holds |
| `SunWatch.Engine.OnDraw` | sunwatch/src/main/java/com/example/android/sunshine/app/MyWatchFace.java:335-363 | the colon flag follows the colon rule; hour and minute are drawn as two digits each |
| `SunWatch.Engine.SendReadyMessageToHandheld` | sunwatch/src/main/java/com/example/android/sunshine/app/MyWatchFace.java:497-508 | sends `dataReady` on the data path to the given node |
| `SunWatch.Engine.UpdateConnectionCapability` | sunwatch/src/main/java/com/example/android/sunshine/app/MyWatchFace.java:480-495 | the for-with-break loop sends exactly what `ReadyEffects` says: one ready request to the first nearby node, or nothing |
| `SunWatch.Engine.OnCapabilityChanged` | sunwatch/src/main/java/com/example/android/sunshine/app/MyWatchFace.java:510-513 | every capability event re-runs peer selection from scratch |
| `SunWatch.Engine.OnConnected` | sunwatch/src/main/java/com/example/android/sunshine/app/MyWatchFace.java:416-429 | the capability lookup may send one ready request; then the capability and message listeners are both added |
| `SunWatch.Engine.OnConnectionSuspended` | sunwatch/src/main/java/com/example/android/sunshine/app/MyWatchFace.java:431-435 | both listeners are removed |
| `SunWatch.Engine.OnConnectionFailed` | sunwatch/src/main/java/com/example/android/sunshine/app/MyWatchFace.java:437-442 | both listeners are removed |
| `SunWatch.Engine.OnMessageReceived` | sunwatch/src/main/java/com/example/android/sunshine/app/MyWatchFace.java:444-478 | assigns the icon and labels in the code's order, and ends in the state and outcome that `Receive` gives |
| `SunshineWearable.ForecastDataFraming` | app/src/main/java/com/example/android/sunshine/app/sync/SunshineWearableService.java:112-144 | no cursor or no first row gives no payload; otherwise the payload reads back as exactly `[icon, max label, min label]` of the first row |
| `SunshineWearable.ReplyMessages` | app/src/main/java/com/example/android/sunshine/app/sync/SunshineWearableService.java:147-155 | a received message makes the service send one reply per connected node, all on the data path with the builder's result, exactly when it is connected and the message is a ready request; otherwise it sends nothing |
| `SunshineWearable.OnlyReadyRequestsFetch` | app/src/main/java/com/example/android/sunshine/app/sync/SunshineWearableService.java:80-98 | the forecast is queried iff the path is the data path and the body is exactly `dataReady` |
| `SunshineWearable.AbsentPayloadIsSent` | app/src/main/java/com/example/android/sunshine/app/sync/SunshineWearableService.java:88 | with no forecast row, a connected service still sends every node a message with a null body |
| `SunshineWearable.WearableService.constructor` | app/src/main/java/com/example/android/sunshine/app/sync/SunshineWearableService.java:43-54 | the client starts connecting and `isConnected` starts false |
| `SunshineWearable.WearableService.OnConnected` | app/src/main/java/com/example/android/sunshine/app/sync/SunshineWearableService.java:56-60 | sets `isConnected` |
| `SunshineWearable.WearableService.OnConnectionSuspended` | app/src/main/java/com/example/android/sunshine/app/sync/SunshineWearableService.java:62-66 | clears `isConnected` |
| `SunshineWearable.WearableService.OnConnectionFailed` | app/src/main/java/com/example/android/sunshine/app/sync/SunshineWearableService.java:74-78 | clears `isConnected` |
| `SunshineWearable.WearableService.GetAllRelevantForecastData` | app/src/main/java/com/example/android/sunshine/app/sync/SunshineWearableService.java:100-145 | returns null iff the cursor is null or has no first row; otherwise the list built by the three `add` calls, which reads back as icon, max label, min label |
| `SunshineWearable.WearableService.SendDataToSunWatch` | app/src/main/java/com/example/android/sunshine/app/sync/SunshineWearableService.java:147-155 | sends nothing when not connected; otherwise lists the nodes and sends one message per node, in order, on the data path with the given body |
| `SunshineWearable.WearableService.OnMessageReceived` | app/src/main/java/com/example/android/sunshine/app/sync/SunshineWearableService.java:80-98 | the effects are exactly `Reaction`: fetch and send for a ready request, nothing for another body on the data path, delegation to the superclass for another path |
| `SunshineWearable.RepeatedReadyRequest` | app/src/main/java/com/example/android/sunshine/app/sync/SunshineWearableService.java:83-93 | two identical ready requests to a connected service are each answered in full; nothing is deduplicated |
| `Handshake.ReplyDecodesOnWatch` | sunwatch/src/main/java/com/example/android/sunshine/app/MyWatchFace.java:452-461 | the reply framed from the first row, received on the data path, makes the watch show that row's art and its two labels with a leading space |
| `Handshake.Exchange` | sunwatch/src/main/java/com/example/android/sunshine/app/MyWatchFace.java:480-508 | a watch that sees a nearby node sends a ready request; a connected handheld with a forecast answers each of its nodes; and every answer makes the watch show that forecast |

## Left out

- Canvas drawing, `Paint` measurement and the float layout offsets are not modelled. They are rendering and floating-point work. This covers `mXOffset`, the bitmap and text offsets, the widths and `invalidate()`.
- Java object serialization is not modelled. Its wire format is replaced by a length-prefixed framing: a 4-byte big-endian count, then each array's 4-byte length and bytes. The framing keeps what the protocol relies on: the list round trip, bytes after the list being ignored, and failure as a whole on a blob that does not start with a list. A `ClassCastException` for a non-list object cannot arise under this framing.
- `Wire.Deserialize`: the stand-in framing has exactly one writing per list, so `Wire.DeserializeRoundTrip` (a blob that reads as a list starts with that list's writing) is a fact about the framing only. Java's `ArrayList` form also carries a capacity that `readObject` reads and discards, so there many different blobs read as the same list.
- PNG compression, bitmap scaling and bitmap decoding are not modelled, because they are library code. The handheld's icon bytes are an input. Decoding is modelled only as "accepted iff the bytes start with the PNG signature".
- The content-provider query, `Utility.formatTemperature` and `Utility.getArtResourceForWeatherCondition` are inputs (`QueryResult`, `Resources`). Closing the cursor is not modelled.
- `String.getBytes()` and `new String(bytes)` use the platform charset. The model keeps the labels as bytes, so `" " + s` is the byte 0x20 in front of `s`. The ready-token check compares bytes.
- Worker threads and `.await()` are not modelled: each worker runs to completion where it is started. So in `SunWatch.Engine.OnConnected` the lookup's ready request is logged before the two listener registrations, although in the app the lookup usually finishes later. Races between overlapping handheld workers are not modelled.
- GoogleApiClient mechanics, `NodeApi` and `CapabilityApi` lookups and logging are left out. Only the flags and the calls are kept; of the two lookups, only the handheld's node listing is logged as a call (`ListConnectedNodes`), while the watch's `getCapability` lookup is not logged and only its answer is an input. A lookup's answer is an input list in iteration order. The watch's `clientConnected` stands for `mGoogleApiClient.isConnected()`, as the callbacks set it.
- The model does not say what the transport delivers to the watch for a message sent with a null body. The watch receives byte sequences only.
- `onTapCommand` and its `Toast`, the `SimpleDateFormat` date text, `onTimeTick` and `onApplyWindowInsets` are left out. They are rendering and UI.
- The time-zone receiver's `onReceive` and the calendar time zone are left out. They are platform callbacks.
- Both `onDestroy` methods and the handheld's `onPeerConnected` are left out. They are lifecycle teardown and a log line.
- `SunWatch.Engine.OnDraw`: the source reads the clock twice, at lines 340 and 352. The model uses one reading for the second, hour and minute. Calendar fields are assumed in range.
- `SunWatch.TwoDigits` covers only 0 to 99, the range of the hour and minute fields it is called with. It writes ASCII digits, so it assumes the default locale's zero digit is '0'; `String.format(Locale.getDefault(), …)` writes other digits in locales such as Arabic.
- `SunWatch.TickDelay`: `long` overflow near 2^63 milliseconds is not modelled.
