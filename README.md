# listore in Dafny

A model of `listore`, a small typed publish/subscribe library, and proofs about it. The library has three layers:

- **`ListenerStore`** is the registry. It maps each event name to the ordered list of listeners registered for it. `on` appends to the list, `notify` calls every listener in the list with the payload, and `off` removes the first occurrence of a listener reference.
- **`StoreWithKeyValidation`** takes the caller's array of allowed event names (the keys) and keeps a reference to it. A call made with any other name is dropped without a word: the registry is not touched and nothing is logged or raised.
- **`StrictStore`** takes the same keys plus a rule for each operation kind: `attachment` for `on`, `notification` for `notify`. Each rule has `throws` (a flag or an error factory) and `logger` (a flag or a logger function). The rules the caller supplies are merged field by field over the defaults `throws: true, logger: false`. On an unknown name the store logs first, then raises (when told to), and otherwise returns `false`.

`errors.ts` builds the diagnostic text `<prefix> "<method>" encountered unknown event: <event>` and the built-in `StrictStoreKeyCheckFailError`.

Modules, one per source file:

| file | module | models |
|---|---|---|
| `types.dfy` | `Types` | the operation kind `'on' \| 'notify'`, `Option`, a record of one handler call |
| `errors.dfy` | `Errors` | `src/errors.ts` |
| `listener_store.dfy` | `Listeners` | `src/listener-store.ts` |
| `store_with_key_validation.dfy` | `KeyValidation` | `src/store-with-key-validation.ts` |
| `strict_store.dfy` | `Strict` | `src/strict-store.ts` |
| `scenarios.dfy` | `Scenarios` | client methods that replay the repository's tests against the contracts alone |

How the model maps to the code:

- **Objects and state.** `ListenerStore` is a class whose `listeners: map<string, seq<ListenerId>>` field holds the own entries of the `_listeners` object. `On` and `Off` reassign that field. `Notify` has no `modifies` clause, so the verifier checks that it cannot change the table.
- **Inherited names.** `_listeners` starts as the plain object `{}`, so it inherits the members of `Object.prototype` (`constructor`, `toString`, `valueOf`, `hasOwnProperty`, `__proto__` and the rest, listed in `InheritedNames`). For such a name with no entry of its own, `_listeners[event]` is a truthy value that is not an array: `on` skips creating a list and its `push` throws a `TypeError`, `notify` throws at `forEach` before calling anyone, and `off` throws at `indexOf`. The registry methods return `ThrewTypeError` in exactly that case (`ReadsInherited`) and leave the table as it was. The validating stores pass that outcome on: `StoreWithKeyValidation` returns it, and `StrictStore` reports it as the raised `RegistryTypeError`.
- **Keys.** Both validating stores keep the caller's key array itself (`const keys: array<string>`), not a copy, as `this._keys = keys` does. The key check reads the array at each call, so a name the caller writes into it later passes from then on.
- **Inheritance.** The two validating stores are classes that hold their registry in `const base: ListenerStore` rather than subclassing it. Their `on` and `notify` delegate to `base`. Neither source class overrides `off`, so a caller uses `store.base.Off` for it. That is the only use of `base` that stands for something in the library's public surface: `base.On` and `base.Notify` skip the key check, and the source's overriding `on` and `notify` offer no such way around it. `base.listeners` is reachable only to stand for the tests' direct writes into `_listeners`.
- **Effects as values.** Listener functions, custom loggers and error factories are opaque identities (naturals). A call of a listener is an `Invocation(listener, payload)`, and `Notify` returns the calls it makes, in order, instead of performing them. A log entry is either `Warning(message)`, standing for `console.warn`, or `CustomLog(logger, event, method)`, standing for one call of the caller's logger. A raised value is either `KeyCheckFail(error)`, the built-in error, or `FactoryError(factory, event, method)`, standing for the value the caller's factory returns for those arguments.
- **The policy.** The policy is the pure function `Decide`, from a resolved rule, an event and an operation to `Ignore | Log | Raise | LogThenRaise`. `Perform` turns that decision into the log entries and the completion (`Returned(false)` or `Threw(error)`). The facade methods `On` and `Notify` return those logs and the raised error, if any.
- **Renamed fields.** `method` is a reserved word in Dafny, so the source's `method` parameter and error field are called `operation` here.
- **False-like fields.** A rule field that is present but `undefined` still overrides the default, because JavaScript spread copies it. It then acts as `false`. A caller writes it as `Some(ThrowsFlag(false))` or `Some(LoggerFlag(false))`.

Three facts about the code that the model keeps:

- Messages and errors name the operation `on` / `notify` (the `method` argument), while the rules are grouped as `attachment` / `notification` (`src/strict-store.ts:80-81`).
- The keys are an array of names, tested with `includes` (`src/store-with-key-validation.ts:47-53`, `src/strict-store.ts:105-111`). The constructors take no name-to-name mapping.
- `notify` iterates the live array with `forEach`, with no snapshot (`src/listener-store.ts:31-36`; see Left out).

## Model

| member | source | states |
|---|---|---|
| Errors.FailedToValidateEventMessage | src/errors.ts:8-14 | the message starts with the prefix and ends with the event name, and its length is the prefix's, plus the quoted method name and the fixed words, plus the event's |
| Errors.ParseMessage | src/errors.ts:13 | any string this parser accepts is exactly the message for the event and method it returns, under the given prefix |
| Errors.MessageRoundTrip | src/errors.ts:8-14 | parsing the message for `(event, method, prefix)` gives back exactly that event and method, so the message determines both |
| Errors.MessageMentionsEventMethodAndUnknown | tests/strict-store.test.ts:51-53 | the message contains the event name, the method name and the word "unknown" |
| Errors.NewKeyCheckFailError | src/errors.ts:19-30 | the error's `event` and `method` are the arguments, `variant` is always "StrictStoreKeyCheckFailError", and its message parses back to the same event and method, so it is failedToValidateEventMessage(event, method, prefix) |
| Listeners.IndexOf | src/listener-store.ts:44 | returns -1 exactly when the listener is not in the list; otherwise it returns an index holding the listener with no earlier occurrence |
| Listeners.RemoveFirst | src/listener-store.ts:41-49 | leaves the list unchanged when the listener is absent, and is one shorter than it when present |
| Listeners.RemoveFirstTakesOneCopy | src/listener-store.ts:41-49 | the result holds the old elements less exactly one copy of the listener, counted with multiplicity |
| Listeners.SpliceRemovesFirst | src/listener-store.ts:44-47 | splicing out the first index at which the listener occurs, as `indexOf` then `splice(index, 1)` do, yields the list without the first occurrence |
| Listeners.Attach | src/listener-store.ts:21-26 | the event's list becomes the old list (empty if absent) plus the listener at the end; every other event's list is unchanged; the event becomes a key |
| Listeners.Detach | src/listener-store.ts:41-49 | the event's list loses the first occurrence of the listener; no other list changes; the key set stays the same; the whole table is unchanged when the listener is not in the event's list |
| Listeners.ListenerStore.constructor | src/listener-store.ts:14-16 | the table starts empty |
| Listeners.ListenerStore.On | src/listener-store.ts:21-26 | throws a TypeError exactly when the name reads an inherited member, leaving the table unchanged; otherwise the new table is Attach(old table, event, listener), with no de-duplication; a table with no inherited names keeps none |
| Listeners.ListenerStore.Notify | src/listener-store.ts:31-36 | one call per list entry, in list order, each with the payload unchanged; no calls when the event has no list; throws a TypeError, with no calls, exactly when the name reads an inherited member; the table is not modified |
| Listeners.ListenerStore.Off | src/listener-store.ts:41-49 | the new table is Detach(old table, event, listener); throws a TypeError exactly when the name reads an inherited member |
| Listeners.FanOutCallsEachRegistration | tests/listener-store.test.ts:87-104 | in a fan-out, each listener is called exactly as many times as it is registered |
| Listeners.AttachAllAppends | tests/listener-store.test.ts:48-64 | registering a sequence of listeners one by one appends exactly that sequence to the event's list and leaves other events alone |
| Listeners.DetachAllRemaining | tests/listener-store.test.ts:106-143 | after a series of removals the event keeps its old registrations less the removed references, counted with multiplicity |
| Listeners.DetachAllKeepsOthers | tests/listener-store.test.ts:161-173 | removals under one event never change another event's list, even one holding the same references |
| Listeners.DetachEveryRegistration | tests/listener-store.test.ts:136-142 | once every registration has been removed once, in any order, the event's list is empty, so later notifies call nobody |
| Listeners.DetachUndoesAttach | src/listener-store.ts:21-49 | removing a listener just after registering it, when it was not registered before, restores the event's old list |
| KeyValidation.StoreWithKeyValidation.constructor | src/store-with-key-validation.ts:11-14 | the store keeps the caller's key array itself, not a copy, and the table starts empty |
| KeyValidation.StoreWithKeyValidation.OnKeyErrorValidationError | src/store-with-key-validation.ts:36-38 | the handler always rejects (returns false) |
| KeyValidation.StoreWithKeyValidation.CheckEvent | src/store-with-key-validation.ts:47-53 | the name passes exactly when the key array holds it at the time of the call; otherwise the handler's verdict (false) is the result, and the handler is called exactly once, with (event, method) |
| KeyValidation.StoreWithKeyValidation.On | src/store-with-key-validation.ts:16-20 | a known key registers as the registry does, or throws the registry's TypeError on an inherited name without changing the table; an unknown key leaves the table unchanged, returns normally and makes exactly one handler call, with (event, 'on') |
| KeyValidation.StoreWithKeyValidation.Notify | src/store-with-key-validation.ts:22-26 | a known key fans out as the registry does, and throws its TypeError exactly when the name reads an inherited member; an unknown key calls no listener and makes exactly one handler call, with (event, 'notify') |
| Strict.MergeRules | src/strict-store.ts:36-54 | for attachment and for notification independently, each field the caller supplies wins; an absent field (or rule, or group, or rule set) gives `throws: true` / `logger: false` |
| Strict.NoRulesMeansDefaults | src/strict-store.ts:5-18 | with no rules, or an empty rule set, the resolved rules are the defaults (`throws: true`, `logger: false`) for both operations |
| Strict.Decide | src/strict-store.ts:82-95 | the decision logs exactly when the logger is not `false`, and raises exactly when `throws` is not `false`, both when both are set |
| Strict.Perform | src/strict-store.ts:82-95 | a decision gives at most one log entry, emitted before the completion; the call throws exactly when the decision raises, and otherwise returns false |
| Strict.StrictStore.constructor | src/strict-store.ts:36-55 | the store keeps the caller's key array itself, not a copy, the rules are MergeRules(rules), and the table starts empty |
| Strict.StrictStore.OnKeyErrorValidationError | src/strict-store.ts:80-96 | `on` uses the attachment rule and `notify` the notification rule. Logger function: exactly one call with (event, method) and no warning. `true`: exactly one warning equal to the standard message. `false`: no log. Factory: its value is raised. `true`: the built-in error for (event, method) is raised. `false`: returns false |
| Strict.StrictStore.CheckEvent | src/strict-store.ts:105-111 | returns true, logging nothing, exactly when the key array holds the name at the time of the call; otherwise the outcome is the handler's |
| Strict.StrictStore.On | src/strict-store.ts:57-61 | the logs and the raised error are those of the key check. A known key registers as the registry does, except that an inherited name raises the registry's TypeError. An unknown key, or an inherited one, leaves the table unchanged, whether the call raises or returns |
| Strict.StrictStore.Notify | src/strict-store.ts:63-67 | the logs and the raised error are those of the key check. A known key fans out as the registry does, and raises the registry's TypeError exactly when the name reads an inherited member. An unknown key calls no listener, even one stored under that name |
| Strict.LoggerOffStillRaisesBuiltIn | tests/strict-store.test.ts:290-312 | with only `logger: false` given for attachment, an unknown name on either operation logs nothing and raises the built-in error; that error carries the event and method, and its message names both and says "unknown" |

## Left out

- `clearListeners` and `clearAllListeners` are called by the tests, but `src/listener-store.ts` does not define them, so they are not modelled.
- Asynchrony is not modelled. `StrictStore.notify` is `async`, so a raise there reaches the caller as a rejected promise. The model gives it the same `raised` result as a synchronous throw. Promises, and awaiting asynchronous listeners, are out of scope.
- Errors thrown by a listener are not modelled, so neither is the way such an error aborts the rest of the fan-out. A logger or factory that itself throws is not modelled either.
- Re-entrancy is not modelled. `forEach` iterates the live array, so a listener that changes the table during `notify` could change which listeners run. The model treats the list as fixed for the duration of the call, and it claims no snapshot guarantee.
- Real I/O does not happen. `console.warn` and custom loggers become log entries. Listener calls become `Invocation` records. A factory's returned value stays abstract and is known only by the factory's identity and its arguments.
- Type-level machinery is not modelled: the generic `EventRegistry`, the conditional parameter types, `ListenerFnOrNever`, `src/types.ts` and `src/types.d.ts`. Event names are plain strings and payloads are a string map standing in for any record. The library never looks inside a payload.
- The tests replace `onKeyErrorValidationError` by assignment. The model's handler is fixed. `StoreWithKeyValidation` reports its handler calls instead, which is what those tests observe.
- The tests write into `_listeners` directly. The model does not forbid a pre-filled table: every method accepts any table, and the scenarios assign `base.listeners` directly. A direct write under `__proto__`, which in JavaScript replaces the object's prototype instead of adding an entry, is treated as an ordinary entry.
- The TypeError the registry throws on an inherited name is only an outcome: its message and its place in the prototype chain are not modelled.
- `Error`'s own `name` and `stack` properties are not modelled. The prefix parameter of the error and the message is modelled. `StrictStore` always uses the default prefix, for its warning and its built-in error. `StoreWithKeyValidation` builds no message and no error at all.
- `src/index.ts` re-exports names that do not exist. That is packaging noise, so it and `eslint.config.mjs` are not part of this model.
