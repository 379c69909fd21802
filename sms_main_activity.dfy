/**
 * The com.example variant's MainActivity: an SMS event stream gated by the
 * stream handler's sink slot, a receiver registered once at configure time,
 * and the "sendSms" / "startListening" / "stopListening" / "getSmsMessages"
 * method-call dispatcher.
 */
module SmsMainActivity {
  import opened Wrappers
  import opened FlutterBridge
  import SmsReceiver

  /** `PendingIntent.getBroadcast(this, requestCode, Intent(action), FLAG_IMMUTABLE)`. */
  datatype PendingIntent = PendingIntent(requestCode: int, action: string, immutable: bool)

  function GetBroadcast(requestCode: int, action: string): PendingIntent {
    PendingIntent(requestCode, action, true)
  }

  /** The handles every part is given: request code 0 and one fixed action each. */
  function SentIntent(): PendingIntent { GetBroadcast(0, "SMS_SENT") }
  function DeliveredIntent(): PendingIntent { GetBroadcast(0, "SMS_DELIVERED") }

  /** One call into SmsManager (the service-centre address is always null and is not recorded). */
  datatype TransportCall =
    | SendTextMessage(destination: string, text: string,
                      sentIntent: Option<PendingIntent>, deliveryIntent: Option<PendingIntent>)
    | SendMultipartTextMessage(destination: string, parts: seq<string>,
                               sentIntents: seq<PendingIntent>, deliveryIntents: seq<PendingIntent>)

  /** A Kotlin exception; only its possibly-null message is observable. */
  datatype Exception = Exception(message: Option<string>)

  /**
   * Where, if anywhere, the send path raises: before any submission
   * (`getDefault`, `divideMessage`, `getBroadcast`) or in the submission call itself.
   */
  datatype SendFault = NoFault | RaisedBeforeSubmit(e: Exception) | RaisedBySubmit(e: Exception)

  /** `SmsManager.divideMessage`, the platform's carrier segmentation, is a parameter. */
  type Divider = string -> seq<string>

  /** What the "sendSms" branch answers and which transport calls it makes. */
  datatype SendOutcome = SendOutcome(result: MethodResult, calls: seq<TransportCall>)

  function InvalidArgument(): MethodResult {
    Error("INVALID_ARGUMENT", "Phone number and message cannot be empty")
  }

  /** `"Failed to send SMS: ${e.message}"`; a null message is rendered as "null". */
  function SendFailed(e: Exception): MethodResult {
    Error("SEND_FAILED", "Failed to send SMS: " + e.message.GetOr("null"))
  }

  function StopFailed(): MethodResult {
    Error("ERROR", "Failed to stop listening")
  }

  function ErrorOf(fault: SendFault): Exception
    requires !fault.NoFault?
  {
    match fault
    case RaisedBeforeSubmit(e) => e
    case RaisedBySubmit(e) => e
  }

  /** `k` copies of `intent`: the list the loop over `parts.indices` builds. */
  function Repeated(k: nat, intent: PendingIntent): seq<PendingIntent> {
    seq(k, _ => intent)
  }

  /** The submission for `parts`: a plain send of the whole message for one part, a multipart send otherwise. */
  function Submission(phone: string, message: string, parts: seq<string>): TransportCall {
    if |parts| == 1 then SendTextMessage(phone, message, None, None)
    else SendMultipartTextMessage(phone, parts, Repeated(|parts|, SentIntent()), Repeated(|parts|, DeliveredIntent()))
  }

  /** The "sendSms" branch as a value: validation, then one submission, with faults turned into SEND_FAILED. */
  function SendSmsOutcome(call: MethodCall, divide: Divider, fault: SendFault): (o: SendOutcome)
    // An empty or missing phone number or message is rejected before any transport call.
    ensures ArgumentOrEmpty(call, "phoneNumber") == "" || ArgumentOrEmpty(call, "message") == "" ==>
              o == SendOutcome(InvalidArgument(), [])
    // Otherwise a raised exception becomes SEND_FAILED with its message, and is never a success.
    ensures ArgumentOrEmpty(call, "phoneNumber") != "" && ArgumentOrEmpty(call, "message") != "" && !fault.NoFault? ==>
              o.result == SendFailed(ErrorOf(fault))
    ensures o.result.Success? <==>
              ArgumentOrEmpty(call, "phoneNumber") != "" && ArgumentOrEmpty(call, "message") != "" && fault.NoFault?
    ensures o.result.Success? ==> o.result.value == BoolValue(true)
    // At most one transport call is made, and none when the fault comes before submission.
    ensures |o.calls| <= 1
    ensures fault.RaisedBeforeSubmit? ==> o.calls == []
    // One part: a single plain send of the original message with null intents.
    ensures var phone, message := ArgumentOrEmpty(call, "phoneNumber"), ArgumentOrEmpty(call, "message");
            phone != "" && message != "" && !fault.RaisedBeforeSubmit? && |divide(message)| == 1 ==>
              o.calls == [SendTextMessage(phone, message, None, None)]
    // K != 1 parts: a single multipart send of the parts in order, with K sent and K delivery intents.
    ensures var phone, message := ArgumentOrEmpty(call, "phoneNumber"), ArgumentOrEmpty(call, "message");
            var parts := divide(message);
            phone != "" && message != "" && !fault.RaisedBeforeSubmit? && |parts| != 1 ==>
              |o.calls| == 1 && o.calls[0].SendMultipartTextMessage? &&
              o.calls[0].destination == phone && o.calls[0].parts == parts &&
              |o.calls[0].sentIntents| == |parts| && |o.calls[0].deliveryIntents| == |parts|
  {
    var phone := ArgumentOrEmpty(call, "phoneNumber");
    var message := ArgumentOrEmpty(call, "message");
    if phone == "" || message == "" then SendOutcome(InvalidArgument(), [])
    else match fault
      case RaisedBeforeSubmit(e) => SendOutcome(SendFailed(e), [])
      case RaisedBySubmit(e) => SendOutcome(SendFailed(e), [Submission(phone, message, divide(message))])
      case NoFault => SendOutcome(Success(BoolValue(true)), [Submission(phone, message, divide(message))])
  }

  /** A missing phone number or message defaults to "" and so is rejected before any transport call. */
  lemma MissingArgumentIsInvalid(call: MethodCall, divide: Divider, fault: SendFault)
    requires "phoneNumber" !in call.arguments || "message" !in call.arguments
    ensures SendSmsOutcome(call, divide, fault) == SendOutcome(InvalidArgument(), [])
  {
  }

  /** The loop over `parts.indices`: one sent and one delivery intent appended per part. */
  method BuildAckIntents(k: nat) returns (sentIntents: seq<PendingIntent>, deliveryIntents: seq<PendingIntent>)
    ensures sentIntents == Repeated(k, SentIntent())
    ensures deliveryIntents == Repeated(k, DeliveredIntent())
  {
    sentIntents, deliveryIntents := [], [];
    var i := 0;
    while i < k
      invariant 0 <= i <= k
      invariant sentIntents == Repeated(i, SentIntent())
      invariant deliveryIntents == Repeated(i, DeliveredIntent())
    {
      sentIntents := sentIntents + [GetBroadcast(0, "SMS_SENT")];
      deliveryIntents := deliveryIntents + [GetBroadcast(0, "SMS_DELIVERED")];
      i := i + 1;
    }
  }

  /** The "sendSms" branch, step by step. */
  method SendSms(call: MethodCall, divide: Divider, fault: SendFault) returns (result: MethodResult, calls: seq<TransportCall>)
    ensures SendOutcome(result, calls) == SendSmsOutcome(call, divide, fault)
  {
    var phoneNumber := ArgumentOrEmpty(call, "phoneNumber");
    var message := ArgumentOrEmpty(call, "message");
    if phoneNumber == "" || message == "" {
      return InvalidArgument(), [];
    }
    if fault.RaisedBeforeSubmit? {
      return SendFailed(fault.e), [];
    }
    var parts := divide(message);
    if |parts| == 1 {
      calls := [SendTextMessage(phoneNumber, message, None, None)];
    } else {
      var sentIntents, deliveryIntents := BuildAckIntents(|parts|);
      calls := [SendMultipartTextMessage(phoneNumber, parts, sentIntents, deliveryIntents)];
    }
    if fault.RaisedBySubmit? {
      result := SendFailed(fault.e);
    } else {
      result := Success(BoolValue(true));
    }
  }

  /** Every part of a multipart send shares one sent handle and one delivery handle: none is distinct. */
  lemma {:induction false} AckHandlesAreShared(phone: string, message: string, parts: seq<string>, i: nat, j: nat)
    requires |parts| != 1 && i < |parts| && j < |parts|
    ensures var c := Submission(phone, message, parts);
            c.sentIntents[i] == c.sentIntents[j] == SentIntent() &&
            c.deliveryIntents[i] == c.deliveryIntents[j] == DeliveredIntent()
  {
  }

  class MainActivity {
    /** The stream handler's slot. */
    var eventSink: Option<SinkId>
    /** Whether `smsReceiver` is registered with the OS. */
    var receiverRegistered: bool
    /** Every `eventSink?.success(data)` that reached a sink, in order. */
    var delivered: seq<Delivery<SmsReceiver.ReceivedSms>>

    /** `configureFlutterEngine`: no sink yet, and the receiver registered once, unconditionally. */
    constructor Configure()
      ensures eventSink == None && receiverRegistered && delivered == []
    {
      eventSink := None;
      receiverRegistered := true;
      delivered := [];
    }

    /** Stream handler `onListen`: store the (possibly null) sink. Registration is untouched. */
    method OnListen(events: Option<SinkId>)
      modifies this`eventSink
      ensures eventSink == events
    {
      eventSink := events;
    }

    /** Stream handler `onCancel`: clear the sink. Registration is untouched. */
    method OnCancel()
      modifies this`eventSink
      ensures eventSink == None
    {
      eventSink := None;
    }

    /** The SmsReceiver callback: forward {phoneNumber, message, timestamp} if a sink is present. */
    method OnSmsReceived(sms: SmsReceiver.ReceivedSms)
      modifies this`delivered
      ensures delivered == old(delivered) + Relay(eventSink, [sms])
    {
      if eventSink.Some? {
        delivered := delivered + [Delivery(eventSink.value, sms)];
      }
    }

    /**
     * The OS broadcasts an SMS intent: a registered receiver runs `onReceive`,
     * whose callbacks are relayed one by one.
     */
    method DeliverSmsBroadcast(intent: SmsReceiver.SmsIntent, parse: SmsReceiver.PduParser)
      modifies this`delivered
      ensures delivered == old(delivered) +
                (if receiverRegistered then Relay(eventSink, SmsReceiver.ExpectedCallbacks(intent, parse)) else [])
    {
      if receiverRegistered {
        var emitted := SmsReceiver.OnReceive(intent, parse);
        var i := 0;
        while i < |emitted|
          invariant 0 <= i <= |emitted|
          invariant delivered == old(delivered) + Relay(eventSink, emitted[..i])
        {
          RelayAppend(eventSink, emitted[..i], [emitted[i]]);
          assert emitted[..i] + [emitted[i]] == emitted[..i + 1];
          OnSmsReceived(emitted[i]);
          i := i + 1;
        }
        assert emitted[..i] == emitted;
      }
    }

    /** `unregisterReceiver(smsReceiver)`: raises, and changes nothing, when it is not registered. */
    method UnregisterReceiver() returns (raised: bool)
      modifies this`receiverRegistered
      ensures raised == !old(receiverRegistered)
      ensures !receiverRegistered
    {
      raised := !receiverRegistered;
      receiverRegistered := false;
    }

    /** The method-call handler. */
    method OnMethodCall(call: MethodCall, divide: Divider, fault: SendFault) returns (result: MethodResult, calls: seq<TransportCall>)
      modifies this`receiverRegistered
      ensures call.name == "sendSms" ==> SendOutcome(result, calls) == SendSmsOutcome(call, divide, fault)
      ensures call.name != "sendSms" ==> calls == []
      ensures call.name != "stopListening" ==> receiverRegistered == old(receiverRegistered)
      ensures call.name == "startListening" ==> result == Success(NullValue)
      ensures call.name == "stopListening" ==>
                !receiverRegistered &&
                result == (if old(receiverRegistered) then Success(NullValue) else StopFailed())
      ensures call.name == "getSmsMessages" ==> result == Success(ListValue([]))
      ensures call.name !in {"sendSms", "startListening", "stopListening", "getSmsMessages"} ==> result == NotImplemented
    {
      calls := [];
      match call.name
      case "sendSms" =>
        result, calls := SendSms(call, divide, fault);
      case "startListening" =>
        result := Success(NullValue);
      case "stopListening" =>
        var raised := UnregisterReceiver();
        result := if raised then StopFailed() else Success(NullValue);
      case "getSmsMessages" =>
        result := Success(ListValue([]));
      case _ =>
        result := NotImplemented;
    }

    /** `onDestroy`: unregister, swallowing the error if the receiver was not registered. */
    method OnDestroy()
      modifies this`receiverRegistered
      ensures !receiverRegistered
    {
      var _ := UnregisterReceiver();
    }
  }

  /** After configuration, the first "stopListening" succeeds and the second answers ERROR. */
  method StopListeningTwice(divide: Divider) returns (first: MethodResult, second: MethodResult)
    ensures first == Success(NullValue)
    ensures second == StopFailed()
  {
    var activity := new MainActivity.Configure();
    var stop := MethodCall("stopListening", map[]);
    var calls;
    first, calls := activity.OnMethodCall(stop, divide, NoFault);
    second, calls := activity.OnMethodCall(stop, divide, NoFault);
  }

  /** An SMS is relayed only while a sink is attached: not before onListen, once during, not after onCancel. */
  method RelayFollowsSubscription(sms: SmsReceiver.ReceivedSms, sink: SinkId)
    returns (before: seq<Delivery<SmsReceiver.ReceivedSms>>, during: seq<Delivery<SmsReceiver.ReceivedSms>>,
             after: seq<Delivery<SmsReceiver.ReceivedSms>>)
    ensures before == [] && during == [Delivery(sink, sms)] && after == during
  {
    var activity := new MainActivity.Configure();
    activity.OnSmsReceived(sms);
    before := activity.delivered;
    activity.OnListen(Some(sink));
    activity.OnSmsReceived(sms);
    during := activity.delivered;
    activity.OnCancel();
    activity.OnSmsReceived(sms);
    after := activity.delivered;
  }
}
