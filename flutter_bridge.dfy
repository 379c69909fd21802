/**
 * What the activities see of the Flutter bridge: an event sink is an opaque
 * handle, every `success(data)` on a sink is recorded as a Delivery, and a
 * method call is answered with one MethodResult.
 */
module FlutterBridge {
  import opened Wrappers

  /** An opaque EventChannel.EventSink handle. */
  type SinkId = nat

  /** One `eventSink.success(event)` call. */
  datatype Delivery<E> = Delivery(sink: SinkId, event: E)

  /** The values the method channels return. */
  datatype Value = NullValue | BoolValue(b: bool) | ListValue(items: seq<Value>)

  /** `result.success(v)`, `result.error(code, message, null)` or `result.notImplemented()`. */
  datatype MethodResult =
    | Success(value: Value)
    | Error(code: string, message: string)
    | NotImplemented

  /** A method call arriving on a MethodChannel: `call.method` and its string arguments. */
  datatype MethodCall = MethodCall(name: string, arguments: map<string, string>)

  /** `call.argument<String>(key) ?: ""`. */
  function ArgumentOrEmpty(call: MethodCall, key: string): string {
    if key in call.arguments then call.arguments[key] else ""
  }

  /**
   * `eventSink?.success(e)` for each of `events`, in order: every event goes
   * to the slot's sink when there is one, and nothing happens otherwise.
   */
  function Relay<E>(sink: Option<SinkId>, events: seq<E>): (ds: seq<Delivery<E>>)
    ensures sink.None? ==> ds == []
    ensures sink.Some? ==> |ds| == |events|
    ensures sink.Some? ==> forall i :: 0 <= i < |ds| ==> ds[i] == Delivery(sink.value, events[i])
  {
    if sink.None? || events == [] then []
    else Relay(sink, events[..|events| - 1]) + [Delivery(sink.value, events[|events| - 1])]
  }

  /** Relaying two batches one after the other is relaying their concatenation. */
  lemma RelayAppend<E>(sink: Option<SinkId>, a: seq<E>, b: seq<E>)
    ensures Relay(sink, a + b) == Relay(sink, a) + Relay(sink, b)
  {
  }
}
