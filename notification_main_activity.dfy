/**
 * The com.sendbox variant's MainActivity: the notification event stream,
 * whose stream handler keeps a sink slot and a receiver handle, and the
 * permission method channel.
 */
module NotificationMainActivity {
  import opened Wrappers
  import opened FlutterBridge
  import opened NotificationListener

  /** What the receiver sends to the sink: {packageName, title, body, timestamp}. */
  datatype NotificationEvent = NotificationEvent(packageName: string, title: string, body: string, timestamp: int)

  /** `getStringExtra(key) ?: ""`: a missing or non-String extra reads as "". */
  function StringExtraOrEmpty(intent: Intent, key: string): string {
    if key in intent.extras && intent.extras[key].StringExtra? then intent.extras[key].s else ""
  }

  /** `getLongExtra(key, 0L)`: a missing or non-Long extra reads as 0. */
  function LongExtraOrZero(intent: Intent, key: string): int {
    if key in intent.extras && intent.extras[key].LongExtra? then intent.extras[key].n else 0
  }

  /** The receiver's `onReceive` mapping: a matching broadcast becomes an event, with "" and 0 for missing extras. */
  function ToNotificationEvent(intent: Option<Intent>): (ev: Option<NotificationEvent>)
    ensures ev.Some? <==> intent.Some? && intent.value.action == Some(ACTION_NOTIFICATION_RECEIVED)
    ensures ev.Some? ==>
              var extras := intent.value.extras;
              (EXTRA_PACKAGE_NAME in extras && extras[EXTRA_PACKAGE_NAME].StringExtra? ==>
                 ev.value.packageName == extras[EXTRA_PACKAGE_NAME].s) &&
              (EXTRA_PACKAGE_NAME !in extras || !extras[EXTRA_PACKAGE_NAME].StringExtra? ==> ev.value.packageName == "") &&
              (EXTRA_TITLE in extras && extras[EXTRA_TITLE].StringExtra? ==> ev.value.title == extras[EXTRA_TITLE].s) &&
              (EXTRA_TITLE !in extras || !extras[EXTRA_TITLE].StringExtra? ==> ev.value.title == "") &&
              (EXTRA_BODY in extras && extras[EXTRA_BODY].StringExtra? ==> ev.value.body == extras[EXTRA_BODY].s) &&
              (EXTRA_BODY !in extras || !extras[EXTRA_BODY].StringExtra? ==> ev.value.body == "") &&
              (EXTRA_TIMESTAMP in extras && extras[EXTRA_TIMESTAMP].LongExtra? ==>
                 ev.value.timestamp == extras[EXTRA_TIMESTAMP].n) &&
              (EXTRA_TIMESTAMP !in extras || !extras[EXTRA_TIMESTAMP].LongExtra? ==> ev.value.timestamp == 0)
  {
    match intent
    case None => None
    case Some(i) =>
      if i.action != Some(ACTION_NOTIFICATION_RECEIVED) then None
      else
        Some(NotificationEvent(
          StringExtraOrEmpty(i, EXTRA_PACKAGE_NAME),
          StringExtraOrEmpty(i, EXTRA_TITLE),
          StringExtraOrEmpty(i, EXTRA_BODY),
          LongExtraOrZero(i, EXTRA_TIMESTAMP)))
  }

  /** What the service broadcasts, the receiver reads back unchanged. */
  lemma PostedNotificationReachesReceiver(notification: Option<StatusBarNotification>, now: int)
    requires OnNotificationPosted(notification, now).Some?
    ensures var sbn := notification.value;
            ToNotificationEvent(OnNotificationPosted(notification, now)) ==
              Some(NotificationEvent(sbn.packageName.value, Title(sbn), MessageBody(sbn), now))
  {
  }

  // ---------------------------------------------------------------------------
  // The permission method channel

  /** Kotlin's `String.contains`. */
  function Contains(text: string, other: string): bool
    decreases |text|
  {
    if |other| > |text| then false
    else if text[..|other|] == other then true
    else Contains(text[1..], other)
  }

  /** `other` occurs in `text` starting at position `i`. */
  ghost predicate OccursAt(text: string, other: string, i: int) {
    0 <= i && i + |other| <= |text| && text[i..i + |other|] == other
  }

  /** `other` occurs in `text` at some position. */
  ghost predicate Occurs(text: string, other: string) {
    exists i :: OccursAt(text, other, i)
  }

  lemma {:induction false} ContainsIffOccurs(text: string, other: string)
    ensures Contains(text, other) <==> Occurs(text, other)
    decreases |text|
  {
    if |other| > |text| {
    } else if text[..|other|] == other {
      assert OccursAt(text, other, 0);
    } else {
      ContainsIffOccurs(text[1..], other);
      if Occurs(text, other) {
        var i :| OccursAt(text, other, i);
        assert i != 0;
        assert text[1..][i - 1..i - 1 + |other|] == text[i..i + |other|];
        assert OccursAt(text[1..], other, i - 1);
      }
      if Occurs(text[1..], other) {
        var i :| OccursAt(text[1..], other, i);
        assert text[i + 1..i + 1 + |other|] == text[1..][i..i + |other|];
        assert OccursAt(text, other, i + 1);
      }
    }
  }

  /** `isNotificationListenerEnabled`, with the secure-settings string passed in. */
  function IsNotificationListenerEnabled(enabledListeners: Option<string>, packageName: string): (enabled: bool)
    ensures enabled <==> enabledListeners.Some? && Occurs(enabledListeners.value, packageName)
  {
    if enabledListeners.None? then false
    else
      ContainsIffOccurs(enabledListeners.value, packageName);
      Contains(enabledListeners.value, packageName)
  }

  /** The permission method-call handler (opening the settings screen is not modelled). */
  function OnMethodCall(call: MethodCall, enabledListeners: Option<string>, packageName: string): (result: MethodResult)
    ensures call.name == "hasNotificationListenerPermission" ==>
              result == Success(BoolValue(enabledListeners.Some? && Occurs(enabledListeners.value, packageName)))
    ensures call.name == "requestNotificationListenerPermission" ==> result == Success(NullValue)
    ensures call.name != "hasNotificationListenerPermission" && call.name != "requestNotificationListenerPermission" ==>
              result == NotImplemented
  {
    match call.name
    case "hasNotificationListenerPermission" => Success(BoolValue(IsNotificationListenerEnabled(enabledListeners, packageName)))
    case "requestNotificationListenerPermission" => Success(NullValue)
    case _ => NotImplemented
  }

  // ---------------------------------------------------------------------------
  // The subscription state machine, on values

  /**
   * The activity's state seen from outside: the sink slot, whether a receiver
   * is held in `notificationReceiver`, and whether the held one is registered.
   */
  datatype ListenerState = ListenerState(sink: Option<SinkId>, held: bool, registered: bool)

  const Idle: ListenerState := ListenerState(None, false, false)

  /** Only a held receiver can be registered. */
  ghost predicate Consistent(s: ListenerState) {
    s.registered ==> s.held
  }

  /** `registerNotificationReceiver`: nothing if one is held; otherwise hold a new one and try to register it. */
  function Register(s: ListenerState, registerRaises: bool): ListenerState {
    if s.held then s else s.(held := true, registered := !registerRaises)
  }

  /**
   * `unregisterNotificationReceiver`: nothing if none is held; otherwise
   * unregister it and drop it, or, when `unregisterReceiver` raises, swallow
   * the error and keep holding it. Whether the OS call raises is a parameter.
   */
  function Unregister(s: ListenerState, unregisterRaises: bool): ListenerState {
    if !s.held || unregisterRaises then s else s.(held := false, registered := false)
  }

  /** The stream-handler and lifecycle events, each with the outcome of the OS call it makes. */
  datatype Op =
    | Listen(events: Option<SinkId>, registerRaises: bool)
    | Cancel(unregisterRaises: bool)
    | Destroy(unregisterRaises: bool)

  function Step(s: ListenerState, op: Op): ListenerState {
    match op
    case Listen(events, raises) => Register(s.(sink := events), raises)
    case Cancel(raises) => Unregister(s.(sink := None), raises)
    case Destroy(raises) => Unregister(s, raises)
  }

  function Run(s: ListenerState, ops: seq<Op>): ListenerState
    decreases |ops|
  {
    if ops == [] then s else Run(Step(s, ops[0]), ops[1..])
  }

  /**
   * Every sequence of stream-handler and lifecycle events keeps the value-level
   * state consistent. On the class this holds by the definition of State();
   * there the "at most one registered receiver, the held one" promise is carried
   * by MainActivity.Valid().
   */
  lemma {:induction false} RunKeepsConsistent(s: ListenerState, ops: seq<Op>)
    requires Consistent(s)
    ensures Consistent(Run(s, ops))
    decreases |ops|
  {
    if ops != [] {
      RunKeepsConsistent(Step(s, ops[0]), ops[1..]);
    }
  }

  /** Registering again while a receiver is held changes nothing: at most one receiver is ever registered. */
  lemma RegisterIsIdempotent(s: ListenerState, first: bool, second: bool)
    ensures Register(Register(s, first), second) == Register(s, first)
  {
  }

  /**
   * An unregister that raises changes nothing (the error is swallowed); one
   * that succeeds drops the receiver, after which a second cancel or destroy
   * changes nothing, whatever its outcome.
   */
  lemma UnregisterIsIdempotent(s: ListenerState, again: bool)
    requires Consistent(s)
    ensures Unregister(s, true) == s
    ensures !Unregister(s, false).held && !Unregister(s, false).registered
    ensures Unregister(Unregister(s, false), again) == Unregister(s, false)
  {
  }

  /** From a healthy state, a listen whose registration succeeds, then a cancel, leaves the activity idle. */
  lemma ListenThenCancelIsIdle(s: ListenerState, events: Option<SinkId>)
    requires s.held <==> s.registered
    ensures Step(s, Listen(events, false)).registered && Step(s, Listen(events, false)).sink == events
    ensures Step(Step(s, Listen(events, false)), Cancel(false)) == Idle
  {
  }

  /** Every cancel and destroy in `ops` meets an `unregisterReceiver` that raises. */
  predicate EveryUnregisterRaises(ops: seq<Op>) {
    forall i :: 0 <= i < |ops| && !ops[i].Listen? ==> ops[i].unregisterRaises
  }

  /**
   * Once a receiver is held but not registered (its registration raised), no
   * sequence of listens, cancels and destroys registers a receiver again as
   * long as every unregister attempt raises: the error is swallowed and the
   * handle kept, and registering returns early while a handle is held.
   */
  lemma {:induction false} FailedRegistrationIsPermanent(s: ListenerState, ops: seq<Op>)
    requires s.held && !s.registered
    requires EveryUnregisterRaises(ops)
    ensures Run(s, ops).held && !Run(s, ops).registered
    decreases |ops|
  {
    if ops != [] {
      assert EveryUnregisterRaises(ops[1..]) by {
        forall i | 0 <= i < |ops| - 1 && !ops[1..][i].Listen?
          ensures ops[1..][i].unregisterRaises
        {
          assert ops[1..][i] == ops[i + 1];
        }
      }
      FailedRegistrationIsPermanent(Step(s, ops[0]), ops[1..]);
    }
  }

  /** The other way out: a succeeding unregister drops the stale handle, and the next listen registers anew. */
  lemma RecoveryAfterFailedRegistration(s: ListenerState, events: Option<SinkId>)
    requires s.held && !s.registered
    ensures Run(s, [Cancel(false), Listen(events, false)]) == ListenerState(events, true, true)
  {
    var ops := [Cancel(false), Listen(events, false)];
    var dropped := Step(s, Cancel(false));
    assert dropped == ListenerState(None, false, false);
    assert ops[1..] == [Listen(events, false)];
    assert Run(s, ops) == Run(dropped, [Listen(events, false)]);
    assert [Listen(events, false)][1..] == [];
    assert Run(dropped, [Listen(events, false)]) == Run(Step(dropped, Listen(events, false)), []);
  }

  /** What a notification broadcast delivers: one event to the sink, when a receiver is registered and the action matches. */
  function Forwarded(s: ListenerState, intent: Option<Intent>): (ds: seq<Delivery<NotificationEvent>>)
    ensures |ds| <= 1
    ensures ds != [] <==> s.registered && s.sink.Some? && ToNotificationEvent(intent).Some?
    ensures ds != [] ==> ds == [Delivery(s.sink.value, ToNotificationEvent(intent).value)]
  {
    if s.registered then
      match ToNotificationEvent(intent)
      case None => []
      case Some(ev) => Relay(s.sink, [ev])
    else []
  }

  /** End to end: an accepted notification reaches the attached sink as {package, title, chosen body, time}. */
  lemma AcceptedNotificationIsDelivered(s: ListenerState, notification: Option<StatusBarNotification>, now: int)
    requires s.registered && s.sink.Some?
    requires Accepted(notification)
    ensures var sbn := notification.value;
            Forwarded(s, OnNotificationPosted(notification, now)) ==
              [Delivery(s.sink.value, NotificationEvent(sbn.packageName.value, Title(sbn), MessageBody(sbn), now))]
  {
  }

  // ---------------------------------------------------------------------------
  // The activity

  /** One `object : BroadcastReceiver()`; each registration attempt makes a new one. */
  class NotificationReceiver {
    constructor () {}
  }

  class MainActivity {
    var eventSink: Option<SinkId>
    var notificationReceiver: NotificationReceiver?
    /** The receivers of this activity that the OS has registered. */
    var registered: set<NotificationReceiver>
    /** Every `eventSink?.success(data)` that reached a sink, in order. */
    var delivered: seq<Delivery<NotificationEvent>>

    /** The OS only holds the receiver the activity holds. */
    ghost predicate Valid()
      reads this
    {
      forall r :: r in registered ==> r == notificationReceiver
    }

    ghost function State(): ListenerState
      reads this
    {
      ListenerState(eventSink, notificationReceiver != null,
                    notificationReceiver != null && notificationReceiver in registered)
    }

    /** `configureFlutterEngine`: channels set up, no sink, no receiver. */
    constructor Configure()
      ensures Valid() && State() == Idle && delivered == []
    {
      eventSink := None;
      notificationReceiver := null;
      registered := {};
      delivered := [];
    }

    /** `registerNotificationReceiver`; `raised` is the exception `registerReceiver` may throw, which escapes. */
    method RegisterNotificationReceiver(registerRaises: bool) returns (raised: bool)
      requires Valid()
      modifies this`notificationReceiver, this`registered
      ensures Valid() && State() == Register(old(State()), registerRaises)
      ensures old(notificationReceiver) != null ==>
                notificationReceiver == old(notificationReceiver) && registered == old(registered) && !raised
      ensures old(notificationReceiver) == null ==> fresh(notificationReceiver) && raised == registerRaises
    {
      if notificationReceiver != null {
        return false;
      }
      var receiver := new NotificationReceiver();
      notificationReceiver := receiver;
      if registerRaises {
        return true;
      }
      registered := registered + {receiver};
      raised := false;
    }

    /** `unregisterNotificationReceiver`, given whether `unregisterReceiver` raises; it never raises itself. */
    method UnregisterNotificationReceiver(unregisterRaises: bool)
      requires Valid()
      modifies this`notificationReceiver, this`registered
      ensures Valid() && State() == Unregister(old(State()), unregisterRaises)
      ensures old(notificationReceiver) == null || unregisterRaises ==>
                notificationReceiver == old(notificationReceiver) && registered == old(registered)
      ensures old(notificationReceiver) != null && !unregisterRaises ==>
                notificationReceiver == null && registered == old(registered) - {old(notificationReceiver)}
    {
      var r := notificationReceiver;
      if r != null {
        // a raised error is caught and logged; the handle is kept
        if !unregisterRaises {
          registered := registered - {r};
          notificationReceiver := null;
        }
      }
    }

    /** Stream handler `onListen`. */
    method OnListen(events: Option<SinkId>, registerRaises: bool) returns (raised: bool)
      requires Valid()
      modifies this`eventSink, this`notificationReceiver, this`registered
      ensures Valid() && State() == Step(old(State()), Listen(events, registerRaises))
      ensures raised == (old(notificationReceiver) == null && registerRaises)
    {
      eventSink := events;
      raised := RegisterNotificationReceiver(registerRaises);
    }

    /** Stream handler `onCancel`. */
    method OnCancel(unregisterRaises: bool)
      requires Valid()
      modifies this`eventSink, this`notificationReceiver, this`registered
      ensures Valid() && State() == Step(old(State()), Cancel(unregisterRaises))
    {
      eventSink := None;
      UnregisterNotificationReceiver(unregisterRaises);
    }

    /** `onDestroy`. */
    method OnDestroy(unregisterRaises: bool)
      requires Valid()
      modifies this`notificationReceiver, this`registered
      ensures Valid() && State() == Step(old(State()), Destroy(unregisterRaises))
    {
      UnregisterNotificationReceiver(unregisterRaises);
    }

    /** The OS delivers a broadcast to the registered receiver, whose `onReceive` relays it. */
    method DeliverNotificationBroadcast(intent: Option<Intent>)
      requires Valid()
      modifies this`delivered
      ensures delivered == old(delivered) + Forwarded(State(), intent)
    {
      var r := notificationReceiver;
      if r != null && r in registered {
        var ev := ToNotificationEvent(intent);
        if ev.Some? && eventSink.Some? {
          delivered := delivered + [Delivery(eventSink.value, ev.value)];
        }
      }
    }
  }
}
