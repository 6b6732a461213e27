# live_updates (Android side), modelled in Dafny

The `live_updates` Flutter plugin shows rich Android notifications from declarative
payloads and sends taps back to the Flutter side. This project models the decision logic of
its Android side:

- **Layout binder** (`layout_binder.dfy`, module `LayoutBinder`). This is the loop in
  `showLayoutNotification`. It resolves each view-id name of `viewData` through the
  resource table and, for each view it finds, emits `RemoteViews` setter calls:
  - translations (dp converted to pixels);
  - text, text colour and text size (the size is not converted);
  - a scaled or an unscaled bitmap.

  The setter calls are `ViewOp` records. `BindViews` is the loop and `BindAll` is its
  specification.
- **Notification composer** (`live_update_manager.dfy`, module `LiveUpdateManager`). This
  covers `showLayoutNotification`, `showNotification` and `cancelNotification`.
  `showNotification` makes a one-shot choice between two builders:
  - the native segmented `ProgressStyle`, gated on the style, API level 35 and a non-empty
    segment list;
  - the compat builder, with a progress bar, the call style or big text.

  The builders' output is one `Notification` record. Posting and cancelling are
  `ServiceCall` values.
- **Bridge** (`live_updates_plugin.dfy`, module `LiveUpdatesPlugin`). The class `Bridge`
  holds the plugin's process-wide `eventSink` and `methodChannel`. It also holds the main
  looper's queue of posted tasks and logs of what reached a sink, a channel or the system
  `NotificationManager`.
  - Lifecycle callbacks set and clear the two fields.
  - `sendPayload` and `onNotificationTapped` queue tasks. A task reads the fields when it
    runs, not when it is posted.
  - `onMethodCall` dispatches on the method name and turns an exception into a
    `"NATIVE_ERROR"` error.

`values.dfy` (module `Values`) holds what the three parts share:
- the dynamic `Value` that crosses the channel;
- Kotlin's `Int`/`Long` widths;
- the conversions the plugin applies: `Long.toInt()` wraps and `Float.toInt()` truncates
  and saturates.

Some things are parameters of the model: the device's resource table, the API level, the
dp-to-pixel conversion and bitmap decoding. The `Env` and `Platform` values carry them.

The model follows what the code does. Several of these behaviours are easy to mistake for something else:
- **Tap delivery.** A tap is not sent to both a sink and a channel by one call. `sendPayload`
  (stream) and `onNotificationTapped` (channel) are separate entry points. The click
  receiver calls only `sendPayload`.
- **Tracker icon.** The icon's decode result is passed on even when decoding failed. It is
  not skipped.
- **Unscaled image.** The fallback path passes the decode result on unchecked.
- **Call style.** The call style starts no foreground service.
- **Layout notifications.** A layout notification uses the call category and maximum
  priority.
- **Detaching.** `onDetachedFromEngine` clears the method channel but leaves `eventSink`
  set. Payloads queued afterwards still reach the old sink.

## Model

| member | source | states |
|---|---|---|
| `Values.Wrap32` | android/src/main/kotlin/com/yours/live_updates/LiveUpdateManager.kt:192 | `Long.toInt()` keeps the value when it fits in `Int` and otherwise differs from it by a multiple of 2^32 |
| `Values.TruncToInt32` | android/src/main/kotlin/com/yours/live_updates/LiveUpdateManager.kt:88-89 | `Float.toInt()` truncates toward zero within `Int` range and saturates at `Int.MIN_VALUE`/`Int.MAX_VALUE` outside it |
| `Values.NumberToInt` | android/src/main/kotlin/com/yours/live_updates/LiveUpdateManager.kt:75 | `Number.toInt()` is the identity on an `Int`, keeps the low 32 bits of a `Long` (`Wrap32`, so a `Long` that fits is unchanged) and truncates a `Double` toward zero with saturation (`TruncToInt32`) |
| `Values.Get` | android/src/main/kotlin/com/yours/live_updates/LiveUpdateManager.kt:63 | reading a key of a channel map gives its value, and `null` when the key is missing |
| `Values.NumberToFloat` | android/src/main/kotlin/com/yours/live_updates/LiveUpdateManager.kt:76 | `Number.toFloat()` keeps the numeric value of an `Int`, a `Long` or a `Double` |
| `LayoutBinder.Lookup` | android/src/main/kotlin/com/yours/live_updates/LiveUpdateManager.kt:59-60 | a name resolves to a non-zero id exactly when the resource table has a non-zero entry for it, and that id is the table's entry |
| `LayoutBinder.TranslationOps` | android/src/main/kotlin/com/yours/live_updates/LiveUpdateManager.kt:63-70 | x (resp. y) yields a translation to the dp-converted value exactly when it is a number, and exactly one call per numeric axis; no other kind of call |
| `LayoutBinder.TextOps` | android/src/main/kotlin/com/yours/live_updates/LiveUpdateManager.kt:73-77 | text set iff it is a string, colour iff a number (narrowed to `Int`), size iff a number and then as given, without dp conversion; exactly one call per present field, so no setter is repeated |
| `LayoutBinder.ImageOps` | android/src/main/kotlin/com/yours/live_updates/LiveUpdateManager.kt:82-111 | no bytes: nothing; bytes, width and height: the scaled bitmap at the dp-converted size, or nothing when decoding fails; bytes with a dimension missing: the unscaled decode result, null included |
| `LayoutBinder.KindOps` | android/src/main/kotlin/com/yours/live_updates/LiveUpdateManager.kt:72-128 | `textView` and `imageView` get their own setters; any other or missing type gets none |
| `LayoutBinder.EntryOpsShape` | android/src/main/kotlin/com/yours/live_updates/LiveUpdateManager.kt:59-76 | an unresolved entry emits nothing; a resolved one's calls all target its view, translations first regardless of type, then its kind's setters |
| `LayoutBinder.BindAllTargets` | android/src/main/kotlin/com/yours/live_updates/LiveUpdateManager.kt:58-60 | every setter call of the loop targets a non-zero id that some entry's name resolved to |
| `LayoutBinder.BindAllSplit` | android/src/main/kotlin/com/yours/live_updates/LiveUpdateManager.kt:58-129 | each entry's calls appear as one block between those of the entries before and after it, so no entry stops the loop |
| `LayoutBinder.UnresolvedEntrySkipped` | android/src/main/kotlin/com/yours/live_updates/LiveUpdateManager.kt:59-60 | an entry whose name resolves to 0 contributes nothing: the result is the other entries' calls, in order |
| `LayoutBinder.ApplyTranslation` | android/src/main/kotlin/com/yours/live_updates/LiveUpdateManager.kt:63-70 | the imperative x/y step emits exactly `TranslationOps` |
| `LayoutBinder.ApplyText` | android/src/main/kotlin/com/yours/live_updates/LiveUpdateManager.kt:73-77 | the imperative `textView` step emits exactly `TextOps` |
| `LayoutBinder.ApplyImage` | android/src/main/kotlin/com/yours/live_updates/LiveUpdateManager.kt:82-111 | the imperative `imageView` step emits exactly `ImageOps` |
| `LayoutBinder.BindEntry` | android/src/main/kotlin/com/yours/live_updates/LiveUpdateManager.kt:59-128 | one loop iteration, with its early `continue`, emits exactly the entry's calls |
| `LayoutBinder.BindViews` | android/src/main/kotlin/com/yours/live_updates/LiveUpdateManager.kt:58-129 | the binding loop emits exactly `BindAll`, with an invariant over the processed prefix |
| `LiveUpdateManager.ContentIntent` | android/src/main/kotlin/com/yours/live_updates/LiveUpdateManager.kt:131-132 | the tap intent: request code = notification id, the payload as its only extra, no action, FLAG_UPDATE_CURRENT so a re-post under the same id replaces the payload |
| `LiveUpdateManager.SmallIcon` | android/src/main/kotlin/com/yours/live_updates/LiveUpdateManager.kt:134-137 | the small icon is the named drawable when it resolves, otherwise `ic_dialog_info`; never 0 |
| `LiveUpdateManager.LayoutNotificationFor` | android/src/main/kotlin/com/yours/live_updates/LiveUpdateManager.kt:131-148 | compat builder on the plugin's channel, no progress bar; bound view as the custom view with the decorated style; small icon as `SmallIcon` chooses; the title (default empty); ongoing defaults to true; auto-cancel iff not ongoing; priority MAX; category CALL; content intent exactly `ContentIntent` of the id and the payload; no promoted extra |
| `LiveUpdateManager.LayoutNotification` | android/src/main/kotlin/com/yours/live_updates/LiveUpdateManager.kt:41-156 | no post at all iff the layout name resolves to 0; otherwise one post under the id (default 0) of exactly the notification `LayoutNotificationFor` describes, around the layout bound by `BindAll` over every entry |
| `LiveUpdateManager.ShowLayoutNotification` | android/src/main/kotlin/com/yours/live_updates/LiveUpdateManager.kt:41-156 | the imperative operation (early return, binding loop, post) yields exactly `LayoutNotification` |
| `LiveUpdateManager.ElementPosition` | android/src/main/kotlin/com/yours/live_updates/LiveUpdateManager.kt:191 | `(m["progress"] as Number).toInt()` succeeds iff the value is a number and throws otherwise, a missing key included |
| `LiveUpdateManager.ElementColor` | android/src/main/kotlin/com/yours/live_updates/LiveUpdateManager.kt:192 | a colour is set iff the value is a `Long`, narrowed to `Int` |
| `LiveUpdateManager.Elements` | android/src/main/kotlin/com/yours/live_updates/LiveUpdateManager.kt:190-202 | segments/points: one element per descriptor, same order, each with its own position and colour; throws iff some descriptor has no numeric position |
| `LiveUpdateManager.NumberArgument` | android/src/main/kotlin/com/yours/live_updates/LiveUpdateManager.kt:180 | the segmented progress defaults to 0, takes any number narrowed to `Int`, and throws on anything else |
| `LiveUpdateManager.IntArgument` | android/src/main/kotlin/com/yours/live_updates/LiveUpdateManager.kt:221 | the compat progress defaults to 0, takes an `Int`, and throws on any other value |
| `LiveUpdateManager.SegmentedNotification` | android/src/main/kotlin/com/yours/live_updates/LiveUpdateManager.kt:170-207 | succeeds iff progress and every segment/point position are numbers; native builder on the plugin's channel, `ProgressStyle`, priority HIGH, no auto-cancel, no category, no promoted extra, no progress bar, no custom view; title and content text (default empty) and `ic_dialog_info`; style progress is the `progress` argument (default 0, narrowed); segment k and point k are built from descriptor k (its position and its `Long` colour), counts kept; tracker icon is the raw decode result |
| `LiveUpdateManager.CallActions` | android/src/main/kotlin/com/yours/live_updates/LiveUpdateManager.kt:231-232 | decline and answer request codes are `id+2` and `id+3` in wrapping `Int` arithmetic (`Wrap32`); they differ from each other and from the content intent's `id`, for every id; each intent carries its action only, with no payload extra and without FLAG_UPDATE_CURRENT |
| `LiveUpdateManager.CompatNotification` | android/src/main/kotlin/com/yours/live_updates/LiveUpdateManager.kt:209-249 | auto-cancel == !ongoing (ongoing default true); promoted extra iff SDK >= 34; the plugin's channel; title and content text (default empty), `ic_dialog_info`, no custom view; "progress": category PROGRESS and bar (max 100, progress 0, indeterminate false by default), no priority, no style; "call": category CALL, priority MAX, call style with the two actions, no bar; anything else, null included: category SERVICE, big text = text, no bar, no priority; fails only on a non-`Int` progress under "progress" |
| `LiveUpdateManager.ShowNotification` | android/src/main/kotlin/com/yours/live_updates/LiveUpdateManager.kt:158-252 | one post under the id (default 0): exactly `SegmentedNotification`'s notification when the gate (style "progress", SDK >= 35, non-empty segments) holds and exactly `CompatNotification`'s otherwise, failing exactly when that builder fails; so a failure needs the gate or a "progress" style with a non-`Int` progress |
| `LiveUpdateManager.ProgressDegradesToCompat` | android/src/main/kotlin/com/yours/live_updates/LiveUpdateManager.kt:170-225 | a "progress" request that misses the gate still posts a compat progress-bar notification of category PROGRESS |
| `LiveUpdateManager.SegmentsPreserveOrder` | android/src/main/kotlin/com/yours/live_updates/LiveUpdateManager.kt:190-195 | in a posted segmented notification, segment k has descriptor k's length, and a colour iff descriptor k's colour is a `Long`; counts kept |
| `LiveUpdateManager.PointsPreserveOrder` | android/src/main/kotlin/com/yours/live_updates/LiveUpdateManager.kt:196-203 | in a posted segmented notification with points, point k has descriptor k's position, and a colour iff descriptor k's colour is a `Long`, for every k below the number of points; count kept |
| `LiveUpdateManager.CancelNotification` | android/src/main/kotlin/com/yours/live_updates/LiveUpdateManager.kt:254-256 | cancel is a single cancel call for that id |
| `LiveUpdatesPlugin.Dispatch` | android/src/main/kotlin/com/yours/live_updates/LiveUpdatesPlugin.kt:53-76 | not implemented iff the name is unknown, with no effect; an error is "NATIVE_ERROR" carrying the exception, comes only from showNotification, and posts nothing; showNotification posts exactly the notification `ShowNotification` builds; layout always answers success and posts exactly `LayoutNotification`'s post, if any; cancel uses the id with default 0 |
| `LiveUpdatesPlugin.SinkEvents` | android/src/main/kotlin/com/yours/live_updates/LiveUpdatesPlugin.kt:23-26 | a delivery task delivers its payload (null included) to exactly the sink current when it runs, and does nothing without a sink |
| `LiveUpdatesPlugin.ChannelInvocations` | android/src/main/kotlin/com/yours/live_updates/LiveUpdatesPlugin.kt:33-37 | a tap task invokes "onNotificationTapped" with its payload on exactly the channel current when it runs, whatever the sink |
| `LiveUpdatesPlugin.Bridge.constructor` | android/src/main/kotlin/com/yours/live_updates/LiveUpdatesPlugin.kt:18-20 | the companion starts with no sink and no channel |
| `LiveUpdatesPlugin.Bridge.OnAttachedToEngine` | android/src/main/kotlin/com/yours/live_updates/LiveUpdatesPlugin.kt:41-44 | sets `methodChannel`; nothing else changes |
| `LiveUpdatesPlugin.Bridge.OnDetachedFromEngine` | android/src/main/kotlin/com/yours/live_updates/LiveUpdatesPlugin.kt:78-82 | clears `methodChannel`; the sink and the queue are untouched |
| `LiveUpdatesPlugin.Bridge.OnListen` | android/src/main/kotlin/com/yours/live_updates/LiveUpdatesPlugin.kt:84-86 | the given sink replaces the previous one (last writer wins); nothing else changes |
| `LiveUpdatesPlugin.Bridge.OnCancel` | android/src/main/kotlin/com/yours/live_updates/LiveUpdatesPlugin.kt:88-90 | clears the sink; nothing else changes |
| `LiveUpdatesPlugin.Bridge.SendPayload` | android/src/main/kotlin/com/yours/live_updates/LiveUpdatesPlugin.kt:23-27 | only enqueues a delivery task; nothing is delivered at call time |
| `LiveUpdatesPlugin.Bridge.OnNotificationTapped` | android/src/main/kotlin/com/yours/live_updates/LiveUpdatesPlugin.kt:30-38 | only enqueues a channel-invocation task |
| `LiveUpdatesPlugin.Bridge.RunNextTask` | android/src/main/kotlin/com/yours/live_updates/LiveUpdatesPlugin.kt:24-37 | runs the oldest task, FIFO, against the sink and channel current at run time; leaves the fields unchanged |
| `LiveUpdatesPlugin.Bridge.OnMethodCall` | android/src/main/kotlin/com/yours/live_updates/LiveUpdatesPlugin.kt:53-76 | replies with exactly `Dispatch`'s reply and appends exactly its service calls; the sink, channel and queue are untouched |
| `LiveUpdatesPlugin.LateSubscriberReceives` | android/src/main/kotlin/com/yours/live_updates/LiveUpdatesPlugin.kt:23-27 | a payload queued before a new sink subscribes is delivered to the new sink, once |
| `LiveUpdatesPlugin.CancelledSinkDropsPayload` | android/src/main/kotlin/com/yours/live_updates/LiveUpdatesPlugin.kt:23-27 | a payload queued before the sink is cancelled is delivered to no one |
| `LiveUpdatesPlugin.TapNeedsNoSink` | android/src/main/kotlin/com/yours/live_updates/LiveUpdatesPlugin.kt:30-38 | a tap on the channel path reaches the attached channel and delivers nothing to any sink |


## Left out

- Android framework objects are not modelled. This covers `RemoteViews`, both notification
  builders, `PendingIntent`, `Person`, `Icon`, `Bitmap` and `NotificationManager`. They are
  records of what the plugin sets or calls, not their behaviour.
- The system's notification registry is not modelled: the model records `notify`/`cancel`
  calls but not the set of visible notifications (replace-by-id is the OS's behaviour).
- `TypedValue.applyDimension` and the decoding and scaling of bitmaps are uninterpreted
  parameters. `Float` is modelled as `real`, so single-precision rounding is not modelled.
- Most top-level arguments are assumed to arrive with their declared types. A mistyped one
  makes `call.argument<T>` throw a `ClassCastException`, and that is not modelled. The
  exception is `progress`, which is read as a `Number` on one path and as an `Int` on the
  other, so its casts are modelled. Likewise, a `viewData` value that is not a map is not
  modelled.
- `SegmentedNotification`: does not model that `Icon.createWithBitmap` throws
  `IllegalArgumentException` on the null bitmap of a failed tracker-icon decode. On the
  device such a request is answered "NATIVE_ERROR" and posts nothing. The model records a
  success that carries the failed decode result, so its "succeeds iff" holds only when the
  tracker icon decodes or is absent.
- The error reply carries the exception as a `Fault`. The message and stack-trace strings
  are not modelled.
- `initialize()` (channel creation) and the `MethodChannel`/`EventChannel` construction and
  handler registration in `onAttachedToEngine`/`onDetachedFromEngine` are not modelled.
  They are I/O plumbing. The plugin instance's own fields (`channel`, `payloadChannel`,
  `liveUpdateManager`) are not modelled either.
- `LiveUpdatesPlugin.Dispatch`: the framework calls are modelled as never throwing, so
  "layout always answers success" does not cover the framework's own exceptions. Each of
  these that is an `Exception` is caught and answered with "NATIVE_ERROR". For example,
  `Bitmap.createScaledBitmap` rejects a target size that truncates to 0 pixels or less. A
  JVM `Error` is not caught. The segmented gate admits API level 35
  (LiveUpdateManager.kt:170), but `Notification.ProgressStyle` exists only from API level
  36, so on an API 35 device constructing it fails with `NoClassDefFoundError`. That escapes
  `catch (e: Exception)`, and no reply is sent. The model follows the code's gate and
  records a post.
- `LiveUpdateManager.CompatNotification`: "fails only on a non-`Int` progress" ignores
  exceptions from the framework. For example, the call style rejects a `Person` whose name
  is empty, and the title defaults to "".
- Floating-point special values are not modelled: NaN and the infinities do not exist in
  `real`. Kotlin's `toInt()` maps NaN to 0.
- Threads are not modelled. The main looper is a FIFO queue whose tasks run one at a time
  when `RunNextTask` is called.
- `NotificationClickReceiver.kt` (broadcast receipt and app launch) and
  `NotificationForegroundService.kt` (service lifecycle) are not part of this model.
- Logging calls are not modelled.
- `viewData` is an unordered map. It is modelled as a sequence of (name, properties) pairs
  in whatever order the map yields them. Every property is stated per entry and holds for
  any order. The model does not need the names to be distinct.
