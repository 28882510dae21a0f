/** A registry that accepts only a fixed list of event names and silently
    drops every call made with another name. */
module KeyValidation {
  import opened Types
  import opened Listeners

  /** What the key check of one call did: whether the name passed, and the
      calls it made into the key-error handler. */
  datatype KeyCheck = KeyCheck(passed: bool, handlerCalls: seq<HandlerCall>)

  /** The store; `base` is the registry it extends, reached directly for
      `off`. `keys` is the caller's own array, kept by reference, so a later
      change to it changes which names pass. */
  class StoreWithKeyValidation {
    const keys: array<string>
    const base: ListenerStore

    constructor (keys: array<string>)
      ensures this.keys == keys
      ensures fresh(base) && base.listeners == map[]
    {
      this.keys := keys;
      base := new ListenerStore();
    }

    /** The key-error handler: it neither logs nor raises, and rejects. */
    function OnKeyErrorValidationError(event: string, operation: Method): (accepted: bool)
      ensures !accepted
    {
      false
    }

    /** A name passes exactly when the key array holds it now; any other name
      goes to the handler once, with the event and the operation, and its
      verdict is the check's. */
    function CheckEvent(event: string, operation: Method): (c: KeyCheck)
      reads keys
      ensures c.passed <==> event in keys[..]
      ensures event in keys[..] ==> c.handlerCalls == []
      ensures event !in keys[..] ==> c.handlerCalls == [HandlerCall(event, operation)]
      ensures event !in keys[..] ==> c.passed == OnKeyErrorValidationError(event, operation)
    {
      if event in keys[..] then KeyCheck(true, [])
      else KeyCheck(OnKeyErrorValidationError(event, operation), [HandlerCall(event, operation)])
    }

    /** Registers `listener` when `event` is a key and otherwise returns
      without touching the table; reports the handler calls made. A key the
      table inherits makes the registry throw. */
    method On(event: string, listener: ListenerId) returns (handlerCalls: seq<HandlerCall>, outcome: Outcome)
      modifies base
      ensures handlerCalls == CheckEvent(event, Method.On).handlerCalls
      ensures event in keys[..] && !ReadsInherited(old(base.listeners), event) ==>
                outcome == Completed && base.listeners == Attach(old(base.listeners), event, listener)
      ensures event in keys[..] && ReadsInherited(old(base.listeners), event) ==>
                outcome == ThrewTypeError && base.listeners == old(base.listeners)
      ensures event !in keys[..] ==> outcome == Completed && base.listeners == old(base.listeners)
    {
      var check := CheckEvent(event, Method.On);
      handlerCalls := check.handlerCalls;
      outcome := Completed;
      if !check.passed {
        return;
      }
      outcome := base.On(event, listener);
    }

    /** Notifies `event` as the registry does when it is a key; otherwise no
      listener is called, whatever the table holds under that name. */
    method Notify(event: string, payload: Payload) returns (handlerCalls: seq<HandlerCall>, outcome: Outcome, calls: seq<Invocation>)
      ensures handlerCalls == CheckEvent(event, Method.Notify).handlerCalls
      ensures outcome.ThrewTypeError? <==> event in keys[..] && ReadsInherited(base.listeners, event)
      ensures event in keys[..] ==> FansOut(calls, Lookup(base.listeners, event), payload)
      ensures event !in keys[..] ==> calls == []
    {
      var check := CheckEvent(event, Method.Notify);
      handlerCalls := check.handlerCalls;
      outcome := Completed;
      calls := [];
      if !check.passed {
        return;
      }
      outcome, calls := base.Notify(event, payload);
    }
  }
}
