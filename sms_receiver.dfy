/**
 * The inbound-SMS BroadcastReceiver of the com.example variant: it unpacks
 * the PDUs of an SMS_RECEIVED broadcast and calls its callback once per
 * message that parses, in PDU order.
 */
module SmsReceiver {
  import opened Wrappers

  const SMS_RECEIVED_ACTION: string := "android.provider.Telephony.SMS_RECEIVED"

  /** One raw protocol data unit. */
  type Pdu = seq<bv8>

  /** The intent's extras: the "pdus" array and the "format" string, either possibly absent. */
  datatype Bundle = Bundle(pdus: Option<seq<Pdu>>, format: Option<string>)

  datatype SmsIntent = SmsIntent(action: Option<string>, extras: Option<Bundle>)

  /** What the receiver reads from a parsed android.telephony.SmsMessage. */
  datatype SmsMessage = SmsMessage(displayOriginatingAddress: string, messageBody: string, timestampMillis: int)

  /** The arguments of one `onSmsReceived(phoneNumber, message, timestamp)` call. */
  datatype ReceivedSms = ReceivedSms(phoneNumber: string, message: string, timestamp: int)

  /** `SmsMessage.createFromPdu(pdu, format)`, which may return null; the platform's parser is a parameter. */
  type PduParser = (Pdu, Option<string>) -> Option<SmsMessage>

  function CallbackOf(m: SmsMessage): ReceivedSms {
    ReceivedSms(m.displayOriginatingAddress, m.messageBody, m.timestampMillis)
  }

  /** The callbacks the second loop makes over the parsed-message array: one per non-null slot, in slot order. */
  function Callbacks(ms: seq<Option<SmsMessage>>): (cs: seq<ReceivedSms>)
    ensures |cs| <= |ms|
  {
    if ms == [] then []
    else
      var last := ms[|ms| - 1];
      Callbacks(ms[..|ms| - 1]) + (if last.Some? then [CallbackOf(last.value)] else [])
  }

  /** The parsed-message array: slot i is parsed from `pdus[i]` with the bundle's one format. */
  function Parsed(pdus: seq<Pdu>, format: Option<string>, parse: PduParser): (ms: seq<Option<SmsMessage>>)
    ensures |ms| == |pdus|
  {
    seq(|pdus|, i requires 0 <= i < |pdus| => parse(pdus[i], format))
  }

  /** Everything `onReceive` hands to its callback for `intent`. */
  function ExpectedCallbacks(intent: SmsIntent, parse: PduParser): (cs: seq<ReceivedSms>)
    ensures intent.action != Some(SMS_RECEIVED_ACTION) ==> cs == []
    ensures intent.extras.None? || intent.extras.value.pdus.None? ==> cs == []
    ensures cs != [] ==> |cs| <= |intent.extras.value.pdus.value|
  {
    if intent.action == Some(SMS_RECEIVED_ACTION) && intent.extras.Some? && intent.extras.value.pdus.Some? then
      var bundle := intent.extras.value;
      Callbacks(Parsed(bundle.pdus.value, bundle.format, parse))
    else []
  }

  /** `onReceive`: fill the message array by index, then call back once per non-null message. */
  method OnReceive(intent: SmsIntent, parse: PduParser) returns (emitted: seq<ReceivedSms>)
    ensures emitted == ExpectedCallbacks(intent, parse)
  {
    emitted := [];
    if intent.action == Some(SMS_RECEIVED_ACTION) {
      var bundle := intent.extras;
      if bundle.Some? {
        var pdus := bundle.value.pdus;
        if pdus.Some? {
          var n := |pdus.value|;
          var messages := new Option<SmsMessage>[n](_ => None);
          var i := 0;
          while i < n
            invariant 0 <= i <= n
            invariant forall k :: 0 <= k < i ==> messages[k] == parse(pdus.value[k], bundle.value.format)
          {
            var format := bundle.value.format;
            messages[i] := parse(pdus.value[i], format);
            i := i + 1;
          }
          assert messages[..] == Parsed(pdus.value, bundle.value.format, parse);
          var j := 0;
          while j < n
            invariant 0 <= j <= n
            invariant emitted == Callbacks(messages[..j])
          {
            assert messages[..j + 1][..j] == messages[..j];
            var message := messages[j];
            if message.Some? {
              emitted := emitted + [CallbackOf(message.value)];
            }
            j := j + 1;
          }
          assert messages[..n] == messages[..];
        }
      }
    }
  }

  /** Callbacks of a concatenation: those of the first part, then those of the second (bundle order is kept). */
  lemma {:induction false} CallbacksAppend(a: seq<Option<SmsMessage>>, b: seq<Option<SmsMessage>>)
    ensures Callbacks(a + b) == Callbacks(a) + Callbacks(b)
  {
    if b == [] {
      assert a + b == a;
    } else {
      assert (a + b)[..|a + b| - 1] == a + b[..|b| - 1];
      CallbacksAppend(a, b[..|b| - 1]);
    }
  }

  /** A callback is made for `c` exactly when some slot holds a message that carries `c`'s fields. */
  lemma {:induction false} CallbackComesFromSomeSlot(ms: seq<Option<SmsMessage>>, c: ReceivedSms)
    ensures c in Callbacks(ms) <==> exists i :: 0 <= i < |ms| && ms[i].Some? && CallbackOf(ms[i].value) == c
  {
    if ms != [] {
      var init := ms[..|ms| - 1];
      CallbackComesFromSomeSlot(init, c);
      if c in Callbacks(init) {
        var i :| 0 <= i < |init| && init[i].Some? && CallbackOf(init[i].value) == c;
        assert ms[i] == init[i];
      }
      if exists i :: 0 <= i < |ms| && ms[i].Some? && CallbackOf(ms[i].value) == c {
        var i :| 0 <= i < |ms| && ms[i].Some? && CallbackOf(ms[i].value) == c;
        if i < |ms| - 1 {
          assert init[i] == ms[i];
        }
      }
    }
  }

  /** When every slot parses, there is exactly one callback per slot, and callback i carries message i unchanged. */
  lemma {:induction false} AllParsedGiveOneCallbackEach(ms: seq<Option<SmsMessage>>)
    requires forall i :: 0 <= i < |ms| ==> ms[i].Some?
    ensures |Callbacks(ms)| == |ms|
    ensures forall i :: 0 <= i < |ms| ==> Callbacks(ms)[i] == CallbackOf(ms[i].value)
  {
    if ms != [] {
      AllParsedGiveOneCallbackEach(ms[..|ms| - 1]);
    }
  }

  /** For a bundle of N PDUs that all parse, onReceive emits exactly N callbacks, the i-th from `pdus[i]`. */
  lemma NBundledPdusGiveNCallbacks(intent: SmsIntent, parse: PduParser)
    requires intent.action == Some(SMS_RECEIVED_ACTION)
    requires intent.extras.Some? && intent.extras.value.pdus.Some?
    requires forall i :: 0 <= i < |intent.extras.value.pdus.value| ==>
               parse(intent.extras.value.pdus.value[i], intent.extras.value.format).Some?
    ensures var pdus := intent.extras.value.pdus.value;
            var cs := ExpectedCallbacks(intent, parse);
            |cs| == |pdus| &&
            forall i :: 0 <= i < |pdus| ==> cs[i] == CallbackOf(parse(pdus[i], intent.extras.value.format).value)
  {
    var b := intent.extras.value;
    AllParsedGiveOneCallbackEach(Parsed(b.pdus.value, b.format, parse));
  }
}
