/** Vocabulary shared by every store: the two operations whose event name is
    validated, and the record of one call into a key-error handler. */
module Types {

  datatype Option<+T> = None | Some(value: T)

  /** The operation that met an unknown event name: `'on'` or `'notify'`. */
  datatype Method = On | Notify

  /** The literal the library uses for an operation in messages and errors. */
  function MethodName(m: Method): string
  {
    match m
    case On => "on"
    case Notify => "notify"
  }

  /** One invocation of a key-error handler, with the arguments it received. */
  datatype HandlerCall = HandlerCall(event: string, operation: Method)
}
