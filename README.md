# SendBox event capture and SMS command core, in Dafny

This project models the decision logic under the Android/Flutter glue of the
SendBox app. The repository holds two draft variants of the app, and both are
modelled:

- **com.example.sendbox** (`sms_receiver.dfy`, `sms_main_activity.dfy`). An
  `SmsReceiver` unpacks the PDUs of each SMS_RECEIVED broadcast and calls back
  once per parsed message, in PDU order. `MainActivity` forwards each callback
  as `{phoneNumber, message, timestamp}` to the EventChannel sink while one is
  attached. Its method channel answers `sendSms`, `startListening`,
  `stopListening` and `getSmsMessages`. `sendSms` validates its arguments and
  then makes one plain send for a one-part message, or one multipart send with
  K sent intents and K delivery intents for a K-part message.
- **com.sendbox.app** (`notification_listener.dfy`,
  `notification_main_activity.dfy`). `SendBoxNotificationListenerService`
  keeps KakaoTalk notifications that have some content and rebroadcasts them.
  `MainActivity` holds a sink slot and a receiver handle. `onListen` registers
  the receiver (at most once) and `onCancel`/`onDestroy` unregister it
  defensively. The receiver turns each matching broadcast into
  `{packageName, title, body, timestamp}` for the sink. A permission method
  channel answers `hasNotificationListenerPermission`.

Shared pieces: `wrappers.dfy` (Option, for Kotlin's nullable values) and
`flutter_bridge.dfy`. The second file holds the sink handle, the log of
deliveries, `Relay` (the `eventSink?.success(...)` pattern) and method results.

Modelling choices:
- The Android calls are parameters. `SmsManager.divideMessage` is a
  `string -> seq<string>` function. `SmsMessage.createFromPdu` is a function
  that may return None. A `SendFault` value says whether, and where, the send
  path raises. In the com.sendbox variant, `registerReceiver` and
  `unregisterReceiver` each take a "raises" flag, so either may fail.
- In the com.example variant, `unregisterReceiver` raises exactly when the
  receiver is not registered (this rule is a modelling choice; see
  "## Left out").
- `System.currentTimeMillis()` (the `now` argument) and the
  `enabled_notification_listeners` setting (the `enabledListeners` argument)
  are inputs.
- Each activity is a class whose fields the callbacks update. For the
  com.sendbox activity, a value-level state machine (`ListenerState`, `Step`,
  `Run`) gives the meaning of its methods, and the lemmas are proved about
  that state machine.

Behaviour of the code worth knowing:
- All sent intents of a multipart send are one handle, and all delivery
  intents are another: request code 0 and one fixed action each
  (`AckHandlesAreShared`). No handle is distinct per part.
- In com.example the receiver is registered unconditionally at configure time.
  `startListening` does nothing. A second `stopListening` answers ERROR
  (`StopListeningTwice`).
- In com.sendbox a failed unregister keeps the receiver handle; the
  bookkeeping is not cleared. A failed `registerReceiver` leaves a handle
  that is held but not registered. As long as every later unregister attempt
  raises, no sequence of listens, cancels and destroys registers a receiver
  again (`FailedRegistrationIsPermanent`). One unregister that succeeds drops
  the stale handle, and the next listen whose `registerReceiver` succeeds
  registers anew
  (`RecoveryAfterFailedRegistration`).
- `getSmsMessages` always answers an empty list, because history querying is
  not implemented.

## Model

| member | source | states |
|---|---|---|
| FlutterBridge.Relay | android/app/src/main/kotlin/com/example/sendbox/MainActivity.kt:42 | with no sink nothing is delivered; with a sink every event is delivered to it, one each, in order |
| FlutterBridge.RelayAppend | android/app/src/main/kotlin/com/sendbox/app/MainActivity.kt:100 | relaying two batches in turn equals relaying their concatenation (arrival order is kept) |
| SmsReceiver.Callbacks | android/app/src/main/kotlin/com/example/sendbox/SmsReceiver.kt:25-34 | the callbacks of the second loop are never more than the array's slots |
| SmsReceiver.Parsed | android/app/src/main/kotlin/com/example/sendbox/SmsReceiver.kt:19-23 | the parsed-message array has exactly as many slots as there are PDUs |
| SmsReceiver.ExpectedCallbacks | android/app/src/main/kotlin/com/example/sendbox/SmsReceiver.kt:14-18 | a wrong action, a null bundle or a null "pdus" array gives no callback; otherwise at most one per PDU |
| SmsReceiver.OnReceive | android/app/src/main/kotlin/com/example/sendbox/SmsReceiver.kt:13-38 | the two loops (array filled by index, then one callback per non-null slot) emit exactly the specified callbacks |
| SmsReceiver.CallbacksAppend | android/app/src/main/kotlin/com/example/sendbox/SmsReceiver.kt:25-34 | callbacks of a split array are those of the first part followed by those of the second (PDU order) |
| SmsReceiver.CallbackComesFromSomeSlot | android/app/src/main/kotlin/com/example/sendbox/SmsReceiver.kt:26-32 | a callback is made exactly for the messages some slot holds, carrying their address, body and timestamp unchanged |
| SmsReceiver.AllParsedGiveOneCallbackEach | android/app/src/main/kotlin/com/example/sendbox/SmsReceiver.kt:25-34 | when every slot parsed, there is one callback per slot and callback i carries message i |
| SmsReceiver.NBundledPdusGiveNCallbacks | android/app/src/main/kotlin/com/example/sendbox/SmsReceiver.kt:14-34 | N PDUs that all parse with the bundle's format give exactly N callbacks, the i-th from `pdus[i]` |
| SmsMainActivity.SendSmsOutcome | android/app/src/main/kotlin/com/example/sendbox/MainActivity.kt:52-111 | empty or missing arguments give INVALID_ARGUMENT and no transport call; one part gives one plain send of the original message with null intents; K != 1 parts give one multipart send of the parts in order with K sent and K delivery intents; any raised exception gives SEND_FAILED with its message and never a success; success is exactly `true` |
| SmsMainActivity.MissingArgumentIsInvalid | android/app/src/main/kotlin/com/example/sendbox/MainActivity.kt:54-60 | a missing phoneNumber or message defaults to "" and gives INVALID_ARGUMENT with no transport call |
| SmsMainActivity.BuildAckIntents | android/app/src/main/kotlin/com/example/sendbox/MainActivity.kt:77-97 | the loop over `parts.indices` builds K copies of the sent handle and K of the delivery handle |
| SmsMainActivity.SendSms | android/app/src/main/kotlin/com/example/sendbox/MainActivity.kt:53-110 | the step-by-step send branch answers and calls exactly as `SendSmsOutcome` says |
| SmsMainActivity.AckHandlesAreShared | android/app/src/main/kotlin/com/example/sendbox/MainActivity.kt:81-96 | all parts of a multipart send share one sent handle and one delivery handle (request code 0) |
| SmsMainActivity.MainActivity.Configure | android/app/src/main/kotlin/com/example/sendbox/MainActivity.kt:18-47 | after configuration there is no sink and the SMS receiver is registered |
| SmsMainActivity.MainActivity.OnListen | android/app/src/main/kotlin/com/example/sendbox/MainActivity.kt:26-28 | onListen stores the given (possibly null) sink and leaves registration alone |
| SmsMainActivity.MainActivity.OnCancel | android/app/src/main/kotlin/com/example/sendbox/MainActivity.kt:30-32 | onCancel clears the sink and leaves registration alone |
| SmsMainActivity.MainActivity.OnSmsReceived | android/app/src/main/kotlin/com/example/sendbox/MainActivity.kt:35-43 | an incoming SMS is delivered as {phoneNumber, message, timestamp} exactly when a sink is present |
| SmsMainActivity.MainActivity.DeliverSmsBroadcast | android/app/src/main/kotlin/com/example/sendbox/MainActivity.kt:35-47 | a broadcast reaches a registered receiver only, and its callbacks are relayed in order to the current sink |
| SmsMainActivity.MainActivity.UnregisterReceiver | android/app/src/main/kotlin/com/example/sendbox/MainActivity.kt:118 | unregistering raises exactly when the receiver is not registered; afterwards it is not registered |
| SmsMainActivity.MainActivity.OnMethodCall | android/app/src/main/kotlin/com/example/sendbox/MainActivity.kt:50-131 | sendSms as specified; startListening succeeds with null and changes nothing; stopListening answers null if the receiver was registered, ERROR otherwise; getSmsMessages answers an empty list; any other name is notImplemented; only sendSms calls the transport |
| SmsMainActivity.MainActivity.OnDestroy | android/app/src/main/kotlin/com/example/sendbox/MainActivity.kt:135-142 | destroy leaves the receiver unregistered and never raises |
| SmsMainActivity.StopListeningTwice | android/app/src/main/kotlin/com/example/sendbox/MainActivity.kt:116-123 | with the receiver registered once at configure time, the first stopListening succeeds and the second answers ERROR |
| SmsMainActivity.RelayFollowsSubscription | android/app/src/main/kotlin/com/example/sendbox/MainActivity.kt:25-43 | an SMS is not delivered before onListen, is delivered once while subscribed, and not after onCancel |
| NotificationListener.MissingExtrasReadAsEmpty | android/app/src/main/kotlin/com/sendbox/app/NotificationListenerService.kt:51-56 | a missing notification, extras bundle, title, text or big text reads as "" |
| NotificationListener.MessageBody | android/app/src/main/kotlin/com/sendbox/app/NotificationListenerService.kt:59 | the body is the big text when that is non-empty, otherwise the text; it is empty iff both are |
| NotificationListener.OnNotificationPosted | android/app/src/main/kotlin/com/sendbox/app/NotificationListenerService.kt:35-80 | a broadcast is sent iff the notification and package are present, the package is com.kakao.talk or com.kakao.talk.plus, and title or text or big text is non-empty; it carries the package, title, chosen body and time |
| NotificationListener.EmptyNotificationIsDropped | android/app/src/main/kotlin/com/sendbox/app/NotificationListenerService.kt:61-64 | a notification with empty title, text and big text sends nothing |
| NotificationMainActivity.ToNotificationEvent | android/app/src/main/kotlin/com/sendbox/app/MainActivity.kt:90-98 | only the NOTIFICATION_RECEIVED action maps to an event; a missing or non-String title, body or package becomes "", a missing or non-Long timestamp 0 |
| NotificationMainActivity.PostedNotificationReachesReceiver | android/app/src/main/kotlin/com/sendbox/app/NotificationListenerService.kt:67-73 | the broadcast the service sends is read back by the receiver as exactly the package, title, chosen body and time |
| NotificationMainActivity.ContainsIffOccurs | android/app/src/main/kotlin/com/sendbox/app/MainActivity.kt:72 | `contains` is true iff the package name occurs at some position of the settings string |
| NotificationMainActivity.IsNotificationListenerEnabled | android/app/src/main/kotlin/com/sendbox/app/MainActivity.kt:66-73 | permission is reported iff the enabled-listeners string is non-null and contains the package name |
| NotificationMainActivity.OnMethodCall | android/app/src/main/kotlin/com/sendbox/app/MainActivity.kt:25-39 | hasNotificationListenerPermission answers the permission check; requestNotificationListenerPermission answers null; other names are notImplemented |
| NotificationMainActivity.RunKeepsConsistent | android/app/src/main/kotlin/com/sendbox/app/MainActivity.kt:44-58 | no sequence of listen, cancel and destroy leaves a registered receiver that is not held |
| NotificationMainActivity.RegisterIsIdempotent | android/app/src/main/kotlin/com/sendbox/app/MainActivity.kt:87 | registering while a receiver is held changes nothing |
| NotificationMainActivity.UnregisterIsIdempotent | android/app/src/main/kotlin/com/sendbox/app/MainActivity.kt:113-122 | an unregister that raises changes nothing; one that succeeds drops the receiver, and a second cancel or destroy then changes nothing |
| NotificationMainActivity.ListenThenCancelIsIdle | android/app/src/main/kotlin/com/sendbox/app/MainActivity.kt:44-58 | from a healthy state a successful onListen stores the sink and registers; onCancel then returns to idle |
| NotificationMainActivity.FailedRegistrationIsPermanent | android/app/src/main/kotlin/com/sendbox/app/MainActivity.kt:87-121 | once a held receiver is not registered, every later sequence of events in which each unregister attempt raises leaves it held and unregistered |
| NotificationMainActivity.RecoveryAfterFailedRegistration | android/app/src/main/kotlin/com/sendbox/app/MainActivity.kt:87-121 | from a held, unregistered receiver, a succeeding cancel then a succeeding listen leaves a registered receiver and the new sink |
| NotificationMainActivity.Forwarded | android/app/src/main/kotlin/com/sendbox/app/MainActivity.kt:91-100 | a broadcast delivers one event iff a receiver is registered, a sink is present and the action matches; nothing otherwise |
| NotificationMainActivity.AcceptedNotificationIsDelivered | android/app/src/main/kotlin/com/sendbox/app/NotificationListenerService.kt:38-73 | with a registered receiver and a sink, each accepted notification reaches the sink exactly once as {package, title, chosen body, time} |
| NotificationMainActivity.MainActivity.Configure | android/app/src/main/kotlin/com/sendbox/app/MainActivity.kt:18-19 | a new activity has no sink and no receiver |
| NotificationMainActivity.MainActivity.RegisterNotificationReceiver | android/app/src/main/kotlin/com/sendbox/app/MainActivity.kt:86-108 | with a receiver held nothing changes; otherwise a fresh receiver is held and registered unless registerReceiver raises |
| NotificationMainActivity.MainActivity.UnregisterNotificationReceiver | android/app/src/main/kotlin/com/sendbox/app/MainActivity.kt:113-123 | no-op without a receiver; on success the field is null; if unregistering raises the error is swallowed and the field keeps its value |
| NotificationMainActivity.MainActivity.OnListen | android/app/src/main/kotlin/com/sendbox/app/MainActivity.kt:44-50 | onListen stores the sink, then registers the receiver; the registerReceiver exception escapes exactly when no receiver was held and registration raised |
| NotificationMainActivity.MainActivity.OnCancel | android/app/src/main/kotlin/com/sendbox/app/MainActivity.kt:52-58 | onCancel clears the sink, then unregisters the receiver, swallowing any error |
| NotificationMainActivity.MainActivity.OnDestroy | android/app/src/main/kotlin/com/sendbox/app/MainActivity.kt:125-128 | onDestroy unregisters the receiver, swallowing any error |
| NotificationMainActivity.MainActivity.DeliverNotificationBroadcast | android/app/src/main/kotlin/com/sendbox/app/MainActivity.kt:89-103 | the registered receiver forwards a matching broadcast to the current sink |

## Left out

- Flutter engine and channel plumbing (binary messenger, channel names, codecs, the channel's own handling of an exception that escapes `onListen`). A sink is an opaque handle, and what it receives is a log of deliveries.
- `Log` calls, `Settings.Secure.getString` (its value is an input) and `startActivity` for the permission screen (I/O). `requestNotificationListenerPermission` is modelled only by its null answer.
- `System.currentTimeMillis()`: it is the `now` input.
- Concurrency. OS callbacks arrive on their own threads; here every event is one sequential step.
- Carrier segmentation (`divideMessage`), PDU decoding (`createFromPdu`) and `PendingIntent.getBroadcast`: they are parameters or fixed values, not reimplemented.
- Acknowledgment callbacks (SMS_SENT / SMS_DELIVERED) are never received by the code and are not modelled.
- History querying: `getSmsMessages` is a TODO in the source that always answers an empty list.
- Java 64-bit `Long` timestamps are unbounded integers. The code does no arithmetic on them, so no wrap-around can arise.
- Kotlin cast failures (`bundle.get("pdus") as Array<*>?`, `pdus[i] as ByteArray`, a non-String method argument) and null address or body fields of a parsed SmsMessage: the model's types rule them out.
- SmsMainActivity.MainActivity.UnregisterReceiver: raises exactly when the receiver is not registered. The Kotlin does not say when `unregisterReceiver` raises; other failures of that call are not modelled in the com.example variant, and `StopListeningTwice` rests on this rule.
- `registerReceiver` at configure time in the com.example variant is taken to succeed, since an exception there would abort configuration.
- NotificationListener.OnNotificationPosted: returns the intent the service hands to `sendBroadcast`. A `sendBroadcast` that raises is caught in the source and gives no broadcast; the model does not represent that failure separately.
- The service's `onCreate`, `onDestroy` and `onNotificationRemoved` only log or do nothing, and are not modelled.
