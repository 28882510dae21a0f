/** The diagnostic text for an unknown event name and the error record the
    strict store raises by default. */
module Errors {
  import opened Types

  /** Prefix used when the caller supplies none. */
  const DefaultPrefix: string := "[STRICT STORE]"

  /** The discriminator every built-in key-check error carries. */
  const ErrorVariant: string := "StrictStoreKeyCheckFailError"

  /** The fixed text between the prefix and the event name: the quoted
      method name followed by the words saying the event is unknown. */
  function Infix(operation: Method): string
  {
    " \"" + MethodName(operation) + "\" encountered unknown event: "
  }

  /** `t` occurs in `s` starting at index `i`. */
  predicate OccursAt(s: string, t: string, i: int)
  {
    0 <= i && i + |t| <= |s| && s[i..i + |t|] == t
  }

  predicate Contains(s: string, t: string)
  {
    exists i | 0 <= i <= |s| :: OccursAt(s, t, i)
  }

  /** The message reported for `event` rejected by `operation`. It opens with the
      prefix and closes with the event name, which is never quoted or escaped. */
  function FailedToValidateEventMessage(event: string, operation: Method, prefix: string): (msg: string)
    ensures |msg| == |prefix| + |Infix(operation)| + |event|
    ensures msg[..|prefix|] == prefix
    ensures msg[|msg| - |event|..] == event
  {
    prefix + Infix(operation) + event
  }

  /** Reads a message back into the event and method it reports, given the
      prefix it was written with; `None` when `msg` has another shape. */
  function ParseMessage(msg: string, prefix: string): (r: Option<HandlerCall>)
    ensures r.Some? ==> msg == FailedToValidateEventMessage(r.value.event, r.value.operation, prefix)
  {
    if |prefix| <= |msg| && msg[..|prefix|] == prefix then
      var rest := msg[|prefix|..];
      assert msg == prefix + rest;
      if |Infix(On)| <= |rest| && rest[..|Infix(On)|] == Infix(On) then
        assert rest == Infix(On) + rest[|Infix(On)|..];
        Some(HandlerCall(rest[|Infix(On)|..], On))
      else if |Infix(Notify)| <= |rest| && rest[..|Infix(Notify)|] == Infix(Notify) then
        assert rest == Infix(Notify) + rest[|Infix(Notify)|..];
        Some(HandlerCall(rest[|Infix(Notify)|..], Notify))
      else
        None
    else
      None
  }

  /** A message determines the event and the method it was built from. */
  lemma {:induction false} MessageRoundTrip(event: string, operation: Method, prefix: string)
    ensures ParseMessage(FailedToValidateEventMessage(event, operation, prefix), prefix)
            == Some(HandlerCall(event, operation))
  {
    var msg := FailedToValidateEventMessage(event, operation, prefix);
    var rest := msg[|prefix|..];
    assert rest == Infix(operation) + event;
    assert rest[..|Infix(operation)|] == Infix(operation);
    if operation == Notify {
      // the two infixes part at their fourth character: 'n' of "on", 'o' of "notify"
      assert rest[3] == 'o' && Infix(On)[3] == 'n';
    }
  }

  /** The message names the event, the method and says "unknown". */
  lemma MessageMentionsEventMethodAndUnknown(event: string, operation: Method, prefix: string)
    ensures Contains(FailedToValidateEventMessage(event, operation, prefix), event)
    ensures Contains(FailedToValidateEventMessage(event, operation, prefix), MethodName(operation))
    ensures Contains(FailedToValidateEventMessage(event, operation, prefix), "unknown")
  {
    var msg := FailedToValidateEventMessage(event, operation, prefix);
    var name := MethodName(operation);
    var p := |prefix|;
    assert msg == prefix + (" \"" + name + "\" encountered unknown event: ") + event;
    assert OccursAt(msg, event, p + |Infix(operation)|);
    assert msg[p + 2..p + 2 + |name|] == name;
    assert OccursAt(msg, name, p + 2);
    assert msg[p + 2 + |name| + 14..p + 2 + |name| + 21] == "unknown";
    assert OccursAt(msg, "unknown", p + 2 + |name| + 14);
  }

  /** The built-in error: a message plus the `event`, `method` (here `operation`) and `variant`
      fields the constructor sets. */
  datatype KeyCheckFailError = KeyCheckFailError(message: string, event: string, operation: Method, variant: string)

  /** The error for `event` rejected by `operation`. Its fields are the arguments,
      its variant is fixed, and its message reports the same event and method. */
  function NewKeyCheckFailError(event: string, operation: Method, prefix: string): (err: KeyCheckFailError)
    ensures err.event == event && err.operation == operation
    ensures err.variant == ErrorVariant
    ensures ParseMessage(err.message, prefix) == Some(HandlerCall(event, operation))
  {
    MessageRoundTrip(event, operation, prefix);
    KeyCheckFailError(FailedToValidateEventMessage(event, operation, prefix), event, operation, ErrorVariant)
  }
}
