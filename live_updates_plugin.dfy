/** `LiveUpdatesPlugin`: the bridge between the embedding application and the notification
    manager.

    The companion object's two fields, `eventSink` and `methodChannel`, are set and cleared by
    the plugin's lifecycle callbacks. A tap is not delivered on the spot: `sendPayload` and
    `onNotificationTapped` post a task to the main looper, and the task reads the field when
    it runs. The looper is modelled as a FIFO queue of such tasks, run one at a time; what
    reaches the sink, what is invoked on the channel and what is sent to the system
    `NotificationManager` are recorded as logs. */
module LiveUpdatesPlugin {
  import opened Values
  import opened LayoutBinder
  import opened LiveUpdateManager

  /** An `EventChannel.EventSink`, known by identity. */
  type Sink = nat

  /** A `MethodChannel`, known by identity. */
  type Channel = nat

  /** A task posted with `Handler(Looper.getMainLooper()).post { … }`. */
  datatype Task =
    /** Posted by `sendPayload`: `eventSink?.success(payload)`. */
    | DeliverPayload(payload: Option<string>)
    /** Posted by `onNotificationTapped`: `methodChannel?.invokeMethod("onNotificationTapped", payload)`. */
    | InvokeTapped(payload: Option<string>)

  /** `success(payload)` called on a sink. */
  datatype Event = Event(sink: Sink, payload: Option<string>)

  /** `invokeMethod(method, argument)` called on a channel. */
  datatype Invocation = Invocation(channel: Channel, name: string, argument: Option<string>)

  /** A method call from the embedding application. */
  datatype MethodCall = MethodCall(name: string, args: Arguments)

  /** The answer given through `MethodChannel.Result`: `success(null)`, `notImplemented()`,
      or `error(code, e.message, e.stackTraceToString())` for the exception `fault`. */
  datatype Reply = ReplySuccess | ReplyNotImplemented | ReplyError(code: string, fault: Fault)

  /** The method names `onMethodCall` knows. */
  predicate Known(name: string) {
    name == "showLayoutNotification" || name == "showNotification" || name == "cancelNotification"
  }

  /** `onMethodCall`, as a value: the reply and the calls made on the `NotificationManager`.
      Every call gets exactly one reply; an unknown name is not implemented and does nothing;
      an exception is answered with a "NATIVE_ERROR" error and posts nothing; a cancel uses
      the notification id, 0 when absent. */
  function Dispatch(call: MethodCall, env: Env): (out: (Reply, seq<ServiceCall>))
    ensures !Known(call.name) <==> out.0 == ReplyNotImplemented
    ensures out.0 == ReplyNotImplemented ==> out.1 == []
    ensures out.0.ReplyError? ==> out.0.code == "NATIVE_ERROR" && out.1 == []
    ensures out.0.ReplyError? ==> call.name == "showNotification"
    ensures |out.1| <= 1
    ensures call.name == "cancelNotification" ==>
      out == (ReplySuccess, [Cancel(call.args.notificationId.GetOr(0))])
    ensures call.name == "showLayoutNotification" ==>
      out.0 == ReplySuccess
      && (out.1 == [] <==> LayoutNotification(call.args, env).None?)
    ensures call.name == "showLayoutNotification" ==>
      out.1 == (if LayoutNotification(call.args, env).Some?
                then [LayoutNotification(call.args, env).value] else [])
    ensures call.name == "showNotification" ==>
      (out.0 == ReplySuccess <==> ShowNotification(call.args, env).Success?)
    ensures call.name == "showNotification" && ShowNotification(call.args, env).Success? ==>
      out.1 == [ShowNotification(call.args, env).value]
    ensures call.name == "showNotification" && ShowNotification(call.args, env).Failure? ==>
      out.0 == ReplyError("NATIVE_ERROR", ShowNotification(call.args, env).error)
  {
    if call.name == "showLayoutNotification" then
      var posted := LayoutNotification(call.args, env);
      (ReplySuccess, if posted.Some? then [posted.value] else [])
    else if call.name == "showNotification" then
      match ShowNotification(call.args, env)
      case Success(post) => (ReplySuccess, [post])
      case Failure(fault) => (ReplyError("NATIVE_ERROR", fault), [])
    else if call.name == "cancelNotification" then
      (ReplySuccess, [CancelNotification(call.args.notificationId.GetOr(0))])
    else
      (ReplyNotImplemented, [])
  }

  /** What a task delivers to the sink, given the sink current when it runs. */
  function SinkEvents(task: Task, sink: Option<Sink>): (events: seq<Event>)
    ensures |events| <= 1
    ensures events != [] <==> task.DeliverPayload? && sink.Some?
    ensures events != [] ==> events[0] == Event(sink.value, task.payload)
  {
    if task.DeliverPayload? && sink.Some? then [Event(sink.value, task.payload)] else []
  }

  /** What a task invokes on the channel, given the channel current when it runs. */
  function ChannelInvocations(task: Task, channel: Option<Channel>): (calls: seq<Invocation>)
    ensures |calls| <= 1
    ensures calls != [] <==> task.InvokeTapped? && channel.Some?
    ensures calls != [] ==> calls[0] == Invocation(channel.value, "onNotificationTapped", task.payload)
  {
    if task.InvokeTapped? && channel.Some?
    then [Invocation(channel.value, "onNotificationTapped", task.payload)]
    else []
  }

  /** The plugin's process-wide state (its companion object), the main looper's queue and
      the logs of what left the plugin. */
  class Bridge {
    /** The device the plugin runs on. */
    const env: Env

    var eventSink: Option<Sink>
    var methodChannel: Option<Channel>
    /** Tasks posted to the main looper and not yet run, oldest first. */
    var mainLooper: seq<Task>
    /** Every `success(payload)` made on a sink, in order. */
    var delivered: seq<Event>
    /** Every `invokeMethod` made on a channel, in order. */
    var invoked: seq<Invocation>
    /** Every `notify`/`cancel` made on the `NotificationManager`, in order. */
    var notificationManager: seq<ServiceCall>

    /** A fresh process: no sink, no channel, nothing queued or sent. */
    constructor (env: Env)
      ensures this.env == env
      ensures eventSink.None? && methodChannel.None?
      ensures mainLooper == [] && delivered == [] && invoked == [] && notificationManager == []
    {
      this.env := env;
      eventSink := None;
      methodChannel := None;
      mainLooper := [];
      delivered := [];
      invoked := [];
      notificationManager := [];
    }

    /** `onAttachedToEngine`: the new method channel becomes the companion's. */
    method OnAttachedToEngine(channel: Channel)
      modifies this
      ensures methodChannel == Some(channel)
      ensures eventSink == old(eventSink) && mainLooper == old(mainLooper)
      ensures delivered == old(delivered) && invoked == old(invoked)
      ensures notificationManager == old(notificationManager)
    {
      methodChannel := Some(channel);
    }

    /** `onDetachedFromEngine`: the method channel is cleared; the sink is left as it is. */
    method OnDetachedFromEngine()
      modifies this
      ensures methodChannel.None?
      ensures eventSink == old(eventSink) && mainLooper == old(mainLooper)
      ensures delivered == old(delivered) && invoked == old(invoked)
      ensures notificationManager == old(notificationManager)
    {
      methodChannel := None;
    }

    /** `onListen`: the given sink (possibly null) replaces whatever sink was there. */
    method OnListen(events: Option<Sink>)
      modifies this
      ensures eventSink == events
      ensures methodChannel == old(methodChannel) && mainLooper == old(mainLooper)
      ensures delivered == old(delivered) && invoked == old(invoked)
      ensures notificationManager == old(notificationManager)
    {
      eventSink := events;
    }

    /** `onCancel`: the sink is cleared. */
    method OnCancel()
      modifies this
      ensures eventSink.None?
      ensures methodChannel == old(methodChannel) && mainLooper == old(mainLooper)
      ensures delivered == old(delivered) && invoked == old(invoked)
      ensures notificationManager == old(notificationManager)
    {
      eventSink := None;
    }

    /** `sendPayload`: queue the delivery; nothing is delivered yet. */
    method SendPayload(payload: Option<string>)
      modifies this
      ensures mainLooper == old(mainLooper) + [DeliverPayload(payload)]
      ensures eventSink == old(eventSink) && methodChannel == old(methodChannel)
      ensures delivered == old(delivered) && invoked == old(invoked)
      ensures notificationManager == old(notificationManager)
    {
      mainLooper := mainLooper + [DeliverPayload(payload)];
    }

    /** `onNotificationTapped`: queue the invocation; nothing is invoked yet. */
    method OnNotificationTapped(payload: Option<string>)
      modifies this
      ensures mainLooper == old(mainLooper) + [InvokeTapped(payload)]
      ensures eventSink == old(eventSink) && methodChannel == old(methodChannel)
      ensures delivered == old(delivered) && invoked == old(invoked)
      ensures notificationManager == old(notificationManager)
    {
      mainLooper := mainLooper + [InvokeTapped(payload)];
    }

    /** The main looper runs its oldest task, if any, against the sink and channel current
        now, not those current when the task was posted. */
    method RunNextTask() returns (ran: bool)
      modifies this
      ensures ran <==> old(mainLooper) != []
      ensures ran ==> mainLooper == old(mainLooper)[1..]
      ensures ran ==> delivered == old(delivered) + SinkEvents(old(mainLooper)[0], eventSink)
      ensures ran ==> invoked == old(invoked) + ChannelInvocations(old(mainLooper)[0], methodChannel)
      ensures !ran ==> mainLooper == old(mainLooper) && delivered == old(delivered) && invoked == old(invoked)
      ensures eventSink == old(eventSink) && methodChannel == old(methodChannel)
      ensures notificationManager == old(notificationManager)
    {
      if mainLooper == [] {
        return false;
      }
      var task := mainLooper[0];
      mainLooper := mainLooper[1..];
      ran := true;
      match task
      case DeliverPayload(payload) =>
        if eventSink.Some? {
          delivered := delivered + [Event(eventSink.value, payload)];
        }
      case InvokeTapped(payload) =>
        if methodChannel.Some? {
          invoked := invoked + [Invocation(methodChannel.value, "onNotificationTapped", payload)];
        }
    }

    /** `onMethodCall`: do what the method name asks and answer once; an exception is caught
        and answered as an error. */
    method OnMethodCall(call: MethodCall) returns (reply: Reply)
      modifies this
      ensures reply == Dispatch(call, env).0
      ensures notificationManager == old(notificationManager) + Dispatch(call, env).1
      ensures eventSink == old(eventSink) && methodChannel == old(methodChannel)
      ensures mainLooper == old(mainLooper) && delivered == old(delivered) && invoked == old(invoked)
    {
      if call.name == "showLayoutNotification" {
        var posted := ShowLayoutNotification(call.args, env);
        if posted.Some? {
          notificationManager := notificationManager + [posted.value];
        }
        reply := ReplySuccess;
      } else if call.name == "showNotification" {
        match ShowNotification(call.args, env)
        case Success(post) =>
          notificationManager := notificationManager + [post];
          reply := ReplySuccess;
        case Failure(fault) =>
          reply := ReplyError("NATIVE_ERROR", fault);
      } else if call.name == "cancelNotification" {
        var notificationId := call.args.notificationId.GetOr(0);
        notificationManager := notificationManager + [CancelNotification(notificationId)];
        reply := ReplySuccess;
      } else {
        reply := ReplyNotImplemented;
      }
    }
  }

  /** A payload queued before a new sink subscribes reaches the new sink, not the one that
      listened when it was queued: the task reads `eventSink` when it runs. */
  method LateSubscriberReceives(bridge: Bridge, payload: Option<string>, later: Sink)
    requires bridge.mainLooper == []
    modifies bridge
    ensures bridge.delivered == old(bridge.delivered) + [Event(later, payload)]
    ensures bridge.invoked == old(bridge.invoked) && bridge.mainLooper == []
    ensures bridge.eventSink == Some(later)
  {
    bridge.SendPayload(payload);
    bridge.OnListen(Some(later));
    var ran := bridge.RunNextTask();
  }

  /** A payload queued before the sink is cancelled reaches no one. */
  method CancelledSinkDropsPayload(bridge: Bridge, payload: Option<string>)
    requires bridge.mainLooper == []
    modifies bridge
    ensures bridge.delivered == old(bridge.delivered)
    ensures bridge.invoked == old(bridge.invoked) && bridge.mainLooper == []
  {
    bridge.SendPayload(payload);
    bridge.OnCancel();
    var ran := bridge.RunNextTask();
  }

  /** A tap sent to the channel reaches the attached channel whether or not a sink listens,
      and delivers nothing to a sink. */
  method TapNeedsNoSink(bridge: Bridge, payload: Option<string>, channel: Channel)
    requires bridge.mainLooper == []
    modifies bridge
    ensures bridge.invoked == old(bridge.invoked) + [Invocation(channel, "onNotificationTapped", payload)]
    ensures bridge.delivered == old(bridge.delivered) && bridge.mainLooper == []
  {
    bridge.OnAttachedToEngine(channel);
    bridge.OnNotificationTapped(payload);
    var ran := bridge.RunNextTask();
  }
}
