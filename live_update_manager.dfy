/** `LiveUpdateManager`: turns the arguments of a method call into the notification that is
    posted to the system `NotificationManager`.

    `NotificationCompat.Builder`, `Notification.Builder`, their styles, `PendingIntent` and
    `Person` are framework objects; the model records what the plugin sets on them as one
    `Notification` value, and a post or a cancel as a `ServiceCall`. */
module LiveUpdateManager {
  import opened Values
  import opened LayoutBinder

  const CHANNEL_ID: string := "live_updates_channel"

  /** `android.R.drawable.ic_dialog_info`, the fallback small icon. */
  const IC_DIALOG_INFO: int := 0x0108_009b

  /** The arguments of a method call, one field per key the plugin reads. An absent key is
      `None` (or `NullV` for `progress`, which is read with two different types). */
  datatype Arguments = Arguments(
    notificationId: Option<int32>,
    layoutName: Option<string>,
    viewData: Option<seq<Entry>>,
    ongoing: Option<bool>,
    payload: Option<string>,
    smallIconName: Option<string>,
    title: Option<string>,
    text: Option<string>,
    style: Option<string>,
    progress: Value,
    progressMax: Option<int32>,
    progressIndeterminate: Option<bool>,
    progressSegments: Option<seq<map<string, Value>>>,
    progressPoints: Option<seq<map<string, Value>>>,
    progressTrackerIcon: Option<seq<bv8>>)

  /** What the plugin reads from the device: `Build.VERSION.SDK_INT`, the application's
      resources and the display and bitmap services. */
  datatype Env = Env(sdk: int, resources: Resources, platform: Platform)

  /** An exception thrown while a notification is built: a cast (`as Number`, or an `Int`
      argument that holds another kind of number) failed on the value of `key`. */
  datatype Fault = CastFailure(key: string)

  /** `PendingIntent.getBroadcast(context, requestCode, intent, flags)` for the click
      receiver; `updateCurrent` stands for `FLAG_UPDATE_CURRENT` (all are `FLAG_IMMUTABLE`). */
  datatype PendingIntent = PendingIntent(requestCode: int32, action: Option<string>,
                                         payload: Option<string>, updateCurrent: bool)

  datatype Category = CategoryProgress | CategoryCall | CategoryService
  datatype Priority = PriorityHigh | PriorityMax
  datatype Builder = CompatBuilder | NativeBuilder

  /** `NotificationCompat.Builder.setProgress(max, progress, indeterminate)`. */
  datatype ProgressBar = ProgressBar(max: int32, progress: int32, indeterminate: bool)

  /** `Notification.ProgressStyle.Segment` and `Point`; `None` leaves the platform colour. */
  datatype Segment = Segment(length: int32, color: Option<int32>)
  datatype Point = Point(position: int32, color: Option<int32>)

  datatype Style =
    | NoStyle
    | BigTextStyle(bigText: string)
    /** `CallStyle.forIncomingCall(person, declineIntent, answerIntent)`. */
    | CallStyle(caller: string, decline: PendingIntent, answer: PendingIntent)
    /** `Notification.ProgressStyle`; `trackerIcon` is `Some(decoded)` when the icon bytes
        were given, the decode result passed on as it is. */
    | ProgressStyle(progress: int32, trackerIcon: Option<Option<Bitmap>>,
                    segments: seq<Segment>, points: Option<seq<Point>>)
    | DecoratedCustomViewStyle

  /** A `RemoteViews` inflated from `layoutId`, with the setter calls made on it. */
  datatype RemoteViews = RemoteViews(layoutId: int, ops: seq<ViewOp>)

  /** What `build()` yields. `autoCancel`, `priority` and `category` are `None` when the
      plugin does not set them; `promotedOngoing` is the `android.isPromotedOngoing` extra. */
  datatype Notification = Notification(
    builder: Builder,
    channelId: string,
    smallIcon: int,
    title: string,
    text: Option<string>,
    ongoing: bool,
    autoCancel: Option<bool>,
    contentIntent: PendingIntent,
    priority: Option<Priority>,
    category: Option<Category>,
    progressBar: Option<ProgressBar>,
    style: Style,
    customView: Option<RemoteViews>,
    promotedOngoing: bool)

  /** A call on the system `NotificationManager`. */
  datatype ServiceCall = Notify(id: int32, notification: Notification) | Cancel(id: int32)

  /** The tap target of every notification: a broadcast keyed by the notification id that
      carries the payload. */
  function ContentIntent(id: int32, payload: Option<string>): (intent: PendingIntent)
    ensures intent.requestCode == id && intent.payload == payload
    ensures intent.action.None? && intent.updateCurrent
  {
    PendingIntent(id, None, payload, true)
  }

  // ----- showLayoutNotification -----

  /** The small icon: the named drawable when the name is given and resolves, otherwise
      `ic_dialog_info`. Never 0. */
  function SmallIcon(res: Resources, name: Option<string>): (icon: int)
    ensures icon != 0
    ensures name.Some? && Lookup(res, Drawable, name.value) != 0 ==> icon == Lookup(res, Drawable, name.value)
    ensures name.None? || Lookup(res, Drawable, name.value) == 0 ==> icon == IC_DIALOG_INFO
  {
    var id := if name.Some? then Lookup(res, Drawable, name.value) else IC_DIALOG_INFO;
    if id != 0 then id else IC_DIALOG_INFO
  }

  /** The notification around a bound layout: a compat notification with the bound view as
      both content views, maximum priority, the call category, and auto-cancel exactly when
      it is not ongoing. */
  function LayoutNotificationFor(args: Arguments, res: Resources, views: RemoteViews): (n: Notification)
    ensures n.customView == Some(views) && n.style == DecoratedCustomViewStyle
    ensures n.ongoing == args.ongoing.GetOr(true) && n.autoCancel == Some(!n.ongoing)
    ensures n.priority == Some(PriorityMax) && n.category == Some(CategoryCall)
    ensures n.contentIntent == ContentIntent(args.notificationId.GetOr(0), args.payload)
    ensures n.builder == CompatBuilder && n.channelId == CHANNEL_ID && n.progressBar.None?
    ensures n.smallIcon == SmallIcon(res, args.smallIconName) && n.smallIcon != 0
    ensures n.title == args.title.GetOr("")
    ensures !n.promotedOngoing && n.text.None?
  {
    var id := args.notificationId.GetOr(0);
    var ongoing := args.ongoing.GetOr(true);
    Notification(
      builder := CompatBuilder,
      channelId := CHANNEL_ID,
      smallIcon := SmallIcon(res, args.smallIconName),
      title := args.title.GetOr(""),
      text := None,
      ongoing := ongoing,
      autoCancel := Some(!ongoing),
      contentIntent := ContentIntent(id, args.payload),
      priority := Some(PriorityMax),
      category := Some(CategoryCall),
      progressBar := None,
      style := DecoratedCustomViewStyle,
      customView := Some(views),
      promotedOngoing := false)
  }

  /** `showLayoutNotification`, as a value: nothing at all when the layout name does not
      resolve; otherwise one post, under the notification id (default 0), of the layout bound
      with every entry of `viewData`. */
  function LayoutNotification(args: Arguments, env: Env): (r: Option<ServiceCall>)
    ensures r.None? <==> Lookup(env.resources, Layout, args.layoutName.GetOr("")) == 0
    ensures r.Some? ==> r.value.Notify? && r.value.id == args.notificationId.GetOr(0)
    ensures r.Some? ==>
      r.value.notification.customView
        == Some(RemoteViews(Lookup(env.resources, Layout, args.layoutName.GetOr("")),
                            BindAll(env.resources, args.viewData.GetOr([]), env.platform)))
    ensures r.Some? ==>
      r.value.notification
        == LayoutNotificationFor(args, env.resources,
             RemoteViews(Lookup(env.resources, Layout, args.layoutName.GetOr("")),
                         BindAll(env.resources, args.viewData.GetOr([]), env.platform)))
  {
    var layoutId := Lookup(env.resources, Layout, args.layoutName.GetOr(""));
    if layoutId == 0 then None
    else
      var views := RemoteViews(layoutId, BindAll(env.resources, args.viewData.GetOr([]), env.platform));
      Some(Notify(args.notificationId.GetOr(0), LayoutNotificationFor(args, env.resources, views)))
  }

  /** `showLayoutNotification`: look the layout up, stop when it is missing, run the binding
      loop, then post. */
  method ShowLayoutNotification(args: Arguments, env: Env) returns (r: Option<ServiceCall>)
    ensures r == LayoutNotification(args, env)
  {
    var notificationId := args.notificationId.GetOr(0);
    var layoutName := args.layoutName.GetOr("");
    var viewData := args.viewData.GetOr([]);
    var layoutId := Lookup(env.resources, Layout, layoutName);
    if layoutId == 0 {
      return None;
    }
    var ops := BindViews(env.resources, viewData, env.platform);
    var n := LayoutNotificationFor(args, env.resources, RemoteViews(layoutId, ops));
    r := Some(Notify(notificationId, n));
  }

  // ----- showNotification: the segmented ProgressStyle branch -----

  /** The segmented branch is taken exactly when the style is "progress", the device runs
      API level 35 or later, and a non-empty segment list was given. */
  predicate SegmentedGate(args: Arguments, sdk: int) {
    && args.style == Some("progress")
    && sdk >= 35
    && args.progressSegments.Some?
    && |args.progressSegments.value| > 0
  }

  /** `(m["progress"] as Number).toInt()`: a hard cast, which throws on anything that is not
      a number, a missing key included. */
  function ElementPosition(m: map<string, Value>, key: string): (r: Result<int32, Fault>)
    ensures r.Success? <==> IsNumber(Get(m, "progress"))
    ensures r.Success? ==> r.value == NumberToInt(Get(m, "progress"))
    ensures r.Failure? ==> r.error == CastFailure(key)
  {
    var v := Get(m, "progress");
    if IsNumber(v) then Success(NumberToInt(v)) else Failure(CastFailure(key))
  }

  /** `(m["color"] as? Long)?.toInt()`: a colour only when the value is a `Long`. */
  function ElementColor(m: map<string, Value>): (c: Option<int32>)
    ensures c.Some? <==> Get(m, "color").LongV?
    ensures c.Some? ==> c.value == Wrap32(Get(m, "color").l)
  {
    match Get(m, "color")
    case LongV(l) => Some(Wrap32(l))
    case _ => None
  }

  /** Every element of the list has a numeric "progress". */
  predicate AllPositioned(ms: seq<map<string, Value>>) {
    forall k :: 0 <= k < |ms| ==> IsNumber(Get(ms[k], "progress"))
  }

  /** The `.map { … }` that turns segment or point descriptors into platform objects: one
      element per descriptor, in the same order, each with its own position and colour; the
      first descriptor without a numeric position throws. */
  function Elements<T>(ms: seq<map<string, Value>>, key: string, make: (int32, Option<int32>) -> T)
    : (r: Result<seq<T>, Fault>)
    ensures r.Success? <==> AllPositioned(ms)
    ensures r.Failure? ==> r.error == CastFailure(key)
    ensures r.Success? ==> |r.value| == |ms|
    ensures r.Success? ==> forall k :: 0 <= k < |ms| ==>
      r.value[k] == make(NumberToInt(Get(ms[k], "progress")), ElementColor(ms[k]))
  {
    if ms == [] then Success([])
    else
      match ElementPosition(ms[0], key)
      case Failure(f) => Failure(f)
      case Success(position) =>
        match Elements(ms[1..], key, make)
        case Failure(f) =>
          assert !IsNumber(Get(ms[1..][0], "progress")) || !AllPositioned(ms[1..]);
          Failure(f)
        case Success(rest) => Success([make(position, ElementColor(ms[0]))] + rest)
  }

  /** `(call.argument<Number>("progress") ?: 0).toInt()`. */
  function NumberArgument(v: Value, key: string): (r: Result<int32, Fault>)
    ensures v.NullV? ==> r == Success(0)
    ensures IsNumber(v) ==> r == Success(NumberToInt(v))
    ensures r.Failure? <==> !v.NullV? && !IsNumber(v)
  {
    if v.NullV? then Success(0)
    else if IsNumber(v) then Success(NumberToInt(v))
    else Failure(CastFailure(key))
  }

  /** `call.argument<Int>("progress") ?: 0`: only a boxed `Int` (or nothing) is accepted. */
  function IntArgument(v: Value, key: string): (r: Result<int32, Fault>)
    ensures v.NullV? ==> r == Success(0)
    ensures v.IntV? ==> r == Success(v.i)
    ensures r.Failure? <==> !v.NullV? && !v.IntV?
  {
    match v
    case NullV => Success(0)
    case IntV(i) => Success(i)
    case _ => Failure(CastFailure(key))
  }

  /** The native `ProgressStyle` notification: segments and points in the order given, the
      tracker icon's decode result passed on unchecked, no auto-cancel, no category and no
      promoted-ongoing extra. */
  function SegmentedNotification(args: Arguments, env: Env): (r: Result<Notification, Fault>)
    requires SegmentedGate(args, env.sdk)
    ensures r.Success? <==>
      && NumberArgument(args.progress, "progress").Success?
      && AllPositioned(args.progressSegments.value)
      && (args.progressPoints.Some? ==> AllPositioned(args.progressPoints.value))
    ensures r.Success? ==>
      && r.value.builder == NativeBuilder && r.value.channelId == CHANNEL_ID
      && r.value.style.ProgressStyle?
      && r.value.autoCancel.None? && r.value.category.None? && !r.value.promotedOngoing
      && r.value.priority == Some(PriorityHigh)
      && r.value.ongoing == args.ongoing.GetOr(true)
      && r.value.title == args.title.GetOr("") && r.value.text == Some(args.text.GetOr(""))
      && r.value.smallIcon == IC_DIALOG_INFO && r.value.customView.None? && r.value.progressBar.None?
      && r.value.contentIntent == ContentIntent(args.notificationId.GetOr(0), args.payload)
    ensures r.Success? ==>
      && |r.value.style.segments| == |args.progressSegments.value|
      && r.value.style.points.Some? == args.progressPoints.Some?
      && (r.value.style.points.Some? ==> |r.value.style.points.value| == |args.progressPoints.value|)
      && r.value.style.trackerIcon
         == (if args.progressTrackerIcon.Some?
             then Some(env.platform.decode(args.progressTrackerIcon.value)) else None)
    ensures r.Success? ==> r.value.style.progress == NumberArgument(args.progress, "progress").value
    ensures r.Success? ==> forall k :: 0 <= k < |args.progressSegments.value| ==>
      r.value.style.segments[k]
        == Segment(NumberToInt(Get(args.progressSegments.value[k], "progress")),
                   ElementColor(args.progressSegments.value[k]))
    ensures r.Success? && args.progressPoints.Some? ==> forall k :: 0 <= k < |args.progressPoints.value| ==>
      r.value.style.points.value[k]
        == Point(NumberToInt(Get(args.progressPoints.value[k], "progress")),
                 ElementColor(args.progressPoints.value[k]))
  {
    match NumberArgument(args.progress, "progress")
    case Failure(f) => Failure(f)
    case Success(progress) =>
      var trackerIcon := if args.progressTrackerIcon.Some?
                         then Some(env.platform.decode(args.progressTrackerIcon.value)) else None;
      match Elements(args.progressSegments.value, "progressSegments", (l, c) => Segment(l, c))
      case Failure(f) => Failure(f)
      case Success(segments) =>
        var points :=
          if args.progressPoints.None? then Success(None)
          else match Elements(args.progressPoints.value, "progressPoints", (l, c) => Point(l, c))
               case Failure(f) => Failure(f)
               case Success(ps) => Success(Some(ps));
        match points
        case Failure(f) => Failure(f)
        case Success(points) =>
          Success(Notification(
            builder := NativeBuilder,
            channelId := CHANNEL_ID,
            smallIcon := IC_DIALOG_INFO,
            title := args.title.GetOr(""),
            text := Some(args.text.GetOr("")),
            ongoing := args.ongoing.GetOr(true),
            autoCancel := None,
            contentIntent := ContentIntent(args.notificationId.GetOr(0), args.payload),
            priority := Some(PriorityHigh),
            category := None,
            progressBar := None,
            style := ProgressStyle(progress, trackerIcon, segments, points),
            customView := None,
            promotedOngoing := false))
  }

  // ----- showNotification: the compat branches -----

  /** The decline and answer actions of the call style, with request codes `id + 2` and
      `id + 3` in `Int` arithmetic: distinct from each other and from the content intent's
      code `id`, whatever the id. */
  function CallActions(id: int32): (actions: (PendingIntent, PendingIntent))
    ensures actions.0.requestCode != id && actions.1.requestCode != id
    ensures actions.0.requestCode != actions.1.requestCode
    ensures actions.0.action == Some("DECLINE") && actions.1.action == Some("ANSWER")
    ensures actions.0.payload.None? && actions.1.payload.None?
    ensures !actions.0.updateCurrent && !actions.1.updateCurrent
    ensures actions.0.requestCode == Wrap32(id + 2) && actions.1.requestCode == Wrap32(id + 3)
    ensures id + 3 <= INT32_MAX ==> actions.0.requestCode == id + 2 && actions.1.requestCode == id + 3
  {
    var decline := Wrap32(id + 2);
    var answer := Wrap32(id + 3);
    assert decline == id + 2 || decline == id + 2 - 0x1_0000_0000;
    assert answer == id + 3 || answer == id + 3 - 0x1_0000_0000;
    (PendingIntent(decline, Some("DECLINE"), None, false),
     PendingIntent(answer, Some("ANSWER"), None, false))
  }

  /** The `NotificationCompat` notification: auto-cancel exactly when not ongoing (ongoing by
      default), the promoted-ongoing extra exactly from API level 34, and the `when (style)`
      choice among a progress bar, the call style and big text. */
  function CompatNotification(args: Arguments, env: Env): (r: Result<Notification, Fault>)
    ensures r.Failure? <==> args.style == Some("progress") && IntArgument(args.progress, "progress").Failure?
    ensures r.Success? ==>
      && r.value.builder == CompatBuilder && r.value.channelId == CHANNEL_ID
      && r.value.ongoing == args.ongoing.GetOr(true)
      && r.value.autoCancel == Some(!r.value.ongoing)
      && r.value.promotedOngoing == (env.sdk >= 34)
      && r.value.contentIntent == ContentIntent(args.notificationId.GetOr(0), args.payload)
      && r.value.title == args.title.GetOr("") && r.value.text == Some(args.text.GetOr(""))
      && r.value.smallIcon == IC_DIALOG_INFO && r.value.customView.None?
    ensures r.Success? && args.style == Some("progress") ==>
      && r.value.category == Some(CategoryProgress)
      && r.value.progressBar == Some(ProgressBar(args.progressMax.GetOr(100),
                                                 IntArgument(args.progress, "progress").value,
                                                 args.progressIndeterminate.GetOr(false)))
      && r.value.priority.None? && r.value.style == NoStyle
    ensures r.Success? && args.style == Some("call") ==>
      && r.value.category == Some(CategoryCall)
      && r.value.priority == Some(PriorityMax)
      && r.value.style == CallStyle(args.title.GetOr(""),
                                    CallActions(args.notificationId.GetOr(0)).0,
                                    CallActions(args.notificationId.GetOr(0)).1)
      && r.value.progressBar.None?
    ensures r.Success? && args.style != Some("progress") && args.style != Some("call") ==>
      && r.value.category == Some(CategoryService)
      && r.value.style == BigTextStyle(args.text.GetOr(""))
      && r.value.progressBar.None? && r.value.priority.None?
  {
    var id := args.notificationId.GetOr(0);
    var title := args.title.GetOr("");
    var text := args.text.GetOr("");
    var ongoing := args.ongoing.GetOr(true);
    var base := Notification(
      builder := CompatBuilder,
      channelId := CHANNEL_ID,
      smallIcon := IC_DIALOG_INFO,
      title := title,
      text := Some(text),
      ongoing := ongoing,
      autoCancel := Some(!ongoing),
      contentIntent := ContentIntent(id, args.payload),
      priority := None,
      category := None,
      progressBar := None,
      style := NoStyle,
      customView := None,
      promotedOngoing := env.sdk >= 34);
    match args.style
    case Some("progress") =>
      (match IntArgument(args.progress, "progress")
       case Failure(f) => Failure(f)
       case Success(progress) =>
         var bar := ProgressBar(args.progressMax.GetOr(100), progress,
                                args.progressIndeterminate.GetOr(false));
         Success(base.(category := Some(CategoryProgress), progressBar := Some(bar))))
    case Some("call") =>
      var (decline, answer) := CallActions(id);
      Success(base.(category := Some(CategoryCall), priority := Some(PriorityMax),
                    style := CallStyle(title, decline, answer)))
    case _ =>
      Success(base.(category := Some(CategoryService), style := BigTextStyle(text)))
  }

  /** `showNotification`: one post under the notification id (default 0), or the exception
      that stopped it before anything was posted. The segmented `ProgressStyle` is used
      exactly when its gate holds; otherwise the compat builder degrades to its progress
      bar, call style or big text. */
  function ShowNotification(args: Arguments, env: Env): (r: Result<ServiceCall, Fault>)
    ensures r.Success? ==> r.value.Notify? && r.value.id == args.notificationId.GetOr(0)
    ensures r.Success? ==>
      (r.value.notification.style.ProgressStyle? <==> SegmentedGate(args, env.sdk))
    ensures r.Success? ==>
      (r.value.notification.autoCancel.Some? <==> !SegmentedGate(args, env.sdk))
    ensures r.Success? && r.value.notification.promotedOngoing ==>
      !SegmentedGate(args, env.sdk) && env.sdk >= 34
    ensures r.Failure? ==>
      SegmentedGate(args, env.sdk)
      || (args.style == Some("progress") && IntArgument(args.progress, "progress").Failure?)
    ensures SegmentedGate(args, env.sdk) ==>
      && (r.Success? <==> SegmentedNotification(args, env).Success?)
      && (r.Success? ==> r.value.notification == SegmentedNotification(args, env).value)
    ensures !SegmentedGate(args, env.sdk) ==>
      && (r.Success? <==> CompatNotification(args, env).Success?)
      && (r.Success? ==> r.value.notification == CompatNotification(args, env).value)
  {
    var id := args.notificationId.GetOr(0);
    if SegmentedGate(args, env.sdk) then
      match SegmentedNotification(args, env)
      case Failure(f) => Failure(f)
      case Success(n) => Success(Notify(id, n))
    else
      match CompatNotification(args, env)
      case Failure(f) => Failure(f)
      case Success(n) => Success(Notify(id, n))
  }

  /** A "progress" request that misses the gate (an older device, or no segments) still
      posts, as a compat progress bar, unless its `progress` argument is not an `Int`. */
  lemma ProgressDegradesToCompat(args: Arguments, env: Env)
    requires args.style == Some("progress") && !SegmentedGate(args, env.sdk)
    requires args.progress.NullV? || args.progress.IntV?
    ensures ShowNotification(args, env).Success?
    ensures ShowNotification(args, env).value.notification.category == Some(CategoryProgress)
    ensures ShowNotification(args, env).value.notification.progressBar.Some?
  {
    assert IntArgument(args.progress, "progress").Success?;
  }

  /** In a posted segmented notification, segments keep the order and number of their
      descriptors, one for one, and a segment has a colour exactly when its descriptor's
      colour is a `Long`. */
  lemma SegmentsPreserveOrder(args: Arguments, env: Env, k: nat)
    requires SegmentedGate(args, env.sdk)
    requires ShowNotification(args, env).Success?
    requires k < |args.progressSegments.value|
    ensures var n := ShowNotification(args, env).value.notification;
      && |n.style.segments| == |args.progressSegments.value|
      && n.style.segments[k].length == NumberToInt(Get(args.progressSegments.value[k], "progress"))
      && (n.style.segments[k].color.Some? <==> Get(args.progressSegments.value[k], "color").LongV?)
  {
    assert SegmentedNotification(args, env).Success?;
  }

  /** Likewise for points: point k of a posted segmented notification has descriptor k's
      position, and a colour exactly when that descriptor's colour is a `Long`. */
  lemma PointsPreserveOrder(args: Arguments, env: Env, k: nat)
    requires SegmentedGate(args, env.sdk)
    requires ShowNotification(args, env).Success?
    requires args.progressPoints.Some? && k < |args.progressPoints.value|
    ensures var n := ShowNotification(args, env).value.notification;
      && n.style.points.Some? && |n.style.points.value| == |args.progressPoints.value|
      && n.style.points.value[k].position == NumberToInt(Get(args.progressPoints.value[k], "progress"))
      && (n.style.points.value[k].color.Some? <==> Get(args.progressPoints.value[k], "color").LongV?)
  {
    assert SegmentedNotification(args, env).Success?;
  }

  /** `cancelNotification`. */
  function CancelNotification(id: int32): (c: ServiceCall)
    ensures c.Cancel? && c.id == id
  {
    Cancel(id)
  }
}
