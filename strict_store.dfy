/** A registry that accepts only a fixed list of event names and applies a
    configurable policy — log, raise, both or neither — to every call made
    with another name, separately for attachment (`on`) and notification
    (`notify`). */
module Strict {
  import opened Types
  import opened Errors
  import opened Listeners

  /** A caller-supplied error factory `(event, method) => Error`, by identity. */
  type FactoryId = nat

  /** A caller-supplied logger `(event, method) => void`, by identity. */
  type LoggerId = nat

  /** The `throws` field of a rule: a flag or an error factory. */
  datatype Throws = ThrowsFlag(enabled: bool) | ThrowsFactory(factory: FactoryId)

  /** The `logger` field of a rule: a flag or a logger function. */
  datatype Logger = LoggerFlag(enabled: bool) | LoggerFn(logger: LoggerId)

  /** A rule as the caller writes it: either field may be left out. */
  datatype StrictRule = StrictRule(throws: Option<Throws>, logger: Option<Logger>)

  /** The `{ key?: StrictRule }` group for one operation kind. */
  datatype RuleGroup = RuleGroup(key: Option<StrictRule>)

  /** The rule set a caller may pass to the constructor. */
  datatype StrictStoreRuleSet = StrictStoreRuleSet(attachment: Option<RuleGroup>, notification: Option<RuleGroup>)

  /** A rule with both fields resolved. */
  datatype Rule = Rule(throws: Throws, logger: Logger)

  /** The store's resolved rules: one for `on`, one for `notify`. */
  datatype Rules = Rules(attachment: Rule, notification: Rule)

  const DefaultRule: Rule := Rule(ThrowsFlag(true), LoggerFlag(false))

  const DefaultValidationRules: Rules := Rules(DefaultRule, DefaultRule)

  /** `rules?.attachment?.key` */
  function AttachmentKey(rules: Option<StrictStoreRuleSet>): Option<StrictRule>
  {
    if rules.Some? && rules.value.attachment.Some? then rules.value.attachment.value.key else None
  }

  /** `rules?.notification?.key` */
  function NotificationKey(rules: Option<StrictStoreRuleSet>): Option<StrictRule>
  {
    if rules.Some? && rules.value.notification.Some? then rules.value.notification.value.key else None
  }

  /** The spread `{ ...defaults, ...(user ?? {}) }`: a field the caller wrote
      replaces the default one. */
  function MergeRule(defaults: Rule, user: Option<StrictRule>): Rule
  {
    match user
    case None => defaults
    case Some(u) =>
      Rule(if u.throws.Some? then u.throws.value else defaults.throws,
           if u.logger.Some? then u.logger.value else defaults.logger)
  }

  /** `r` follows `user` field by field, taking `throws: true` and
      `logger: false` for every field `user` leaves out. */
  ghost predicate OverridesDefaults(r: Rule, user: Option<StrictRule>)
  {
    && (user.Some? && user.value.throws.Some? ==> r.throws == user.value.throws.value)
    && (user.None? || user.value.throws.None? ==> r.throws == ThrowsFlag(true))
    && (user.Some? && user.value.logger.Some? ==> r.logger == user.value.logger.value)
    && (user.None? || user.value.logger.None? ==> r.logger == LoggerFlag(false))
  }

  /** The constructor's merge of the caller's rules over the defaults, done
      for attachment and for notification independently. */
  function MergeRules(rules: Option<StrictStoreRuleSet>): (r: Rules)
    ensures OverridesDefaults(r.attachment, AttachmentKey(rules))
    ensures OverridesDefaults(r.notification, NotificationKey(rules))
  {
    Rules(MergeRule(DefaultValidationRules.attachment, AttachmentKey(rules)),
          MergeRule(DefaultValidationRules.notification, NotificationKey(rules)))
  }

  /** With no rules at all the store raises on every unknown name and logs nothing. */
  lemma NoRulesMeansDefaults()
    ensures MergeRules(None) == DefaultValidationRules
    ensures MergeRules(Some(StrictStoreRuleSet(None, None))) == DefaultValidationRules
  {
  }

  /** One entry of the log channel: a default warning, or a call of the
      caller's logger with the event and the operation. */
  datatype LogEntry = Warning(message: string) | CustomLog(logger: LoggerId, event: string, operation: Method)

  /** What a call raises: the built-in error, the value the caller's factory
      returns when given the event and the operation, or the `TypeError` the
      registry throws on a key the table inherits. */
  datatype RaisedError =
    | KeyCheckFail(error: KeyCheckFailError)
    | FactoryError(factory: FactoryId, event: string, operation: Method)
    | RegistryTypeError

  /** The reaction to one rejected name, decided once per call. */
  datatype RejectionAction =
    | Ignore
    | Log(entry: LogEntry)
    | Raise(error: RaisedError)
    | LogThenRaise(logged: LogEntry, raised: RaisedError)

  predicate LoggerEnabled(l: Logger)
  {
    !(l == LoggerFlag(false))
  }

  predicate ThrowsEnabled(t: Throws)
  {
    !(t == ThrowsFlag(false))
  }

  /** The policy: log when the logger is set, raise when throws is set. */
  function Decide(rule: Rule, event: string, operation: Method): (a: RejectionAction)
    ensures (a.Log? || a.LogThenRaise?) <==> LoggerEnabled(rule.logger)
    ensures (a.Raise? || a.LogThenRaise?) <==> ThrowsEnabled(rule.throws)
  {
    var entry :=
      match rule.logger
      case LoggerFn(l) => Some(CustomLog(l, event, operation))
      case LoggerFlag(on) =>
        if on then Some(Warning(FailedToValidateEventMessage(event, operation, DefaultPrefix))) else None;
    var error :=
      match rule.throws
      case ThrowsFactory(f) => Some(FactoryError(f, event, operation))
      case ThrowsFlag(on) =>
        if on then Some(KeyCheckFail(NewKeyCheckFailError(event, operation, DefaultPrefix))) else None;
    if entry.Some? && error.Some? then LogThenRaise(entry.value, error.value)
    else if entry.Some? then Log(entry.value)
    else if error.Some? then Raise(error.value)
    else Ignore
  }

  /** How a call ends: it returns a value, or it throws. */
  datatype Completion = Returned(value: bool) | Threw(error: RaisedError)

  /** What the handler (or a whole key check) did: the log entries it
      emitted, in order, and how it ended. */
  datatype Handled = Handled(logs: seq<LogEntry>, completion: Completion)

  /** Carries out an action: the log entry first, then the raise; a call that
      raises nothing returns `false`. */
  function Perform(a: RejectionAction): (h: Handled)
    ensures |h.logs| == (if a.Log? || a.LogThenRaise? then 1 else 0)
    ensures h.completion.Threw? <==> (a.Raise? || a.LogThenRaise?)
    ensures h.completion != Returned(true)
  {
    match a
    case Ignore => Handled([], Returned(false))
    case Log(entry) => Handled([entry], Returned(false))
    case Raise(err) => Handled([], Threw(err))
    case LogThenRaise(entry, err) => Handled([entry], Threw(err))
  }

  /** The store. `base` is the registry it extends, reached directly for
      `off`. `keys` is the caller's own array, kept by reference, so a later
      change to it changes which names pass. */
  class StrictStore {
    const keys: array<string>
    const rules: Rules
    const base: ListenerStore

    constructor (keys: array<string>, rules: Option<StrictStoreRuleSet>)
      ensures this.keys == keys
      ensures this.rules == MergeRules(rules)
      ensures fresh(base) && base.listeners == map[]
    {
      this.keys := keys;
      this.rules := MergeRules(rules);
      base := new ListenerStore();
    }

    /** `on` is governed by the attachment rule, `notify` by the notification rule. */
    function RuleFor(operation: Method): Rule
    {
      if operation == Method.On then rules.attachment else rules.notification
    }

    /** The key-error handler. Logging: a logger function is called once with
      the event and operation and no warning is emitted; `true` emits exactly
      the standard warning; `false` logs nothing. Raising, after the logging:
      a factory's result is raised; `true` raises the built-in error for the
      event and operation; `false` returns `false`. */
    function OnKeyErrorValidationError(event: string, operation: Method): (h: Handled)
      ensures RuleFor(operation).logger.LoggerFn? ==>
                h.logs == [CustomLog(RuleFor(operation).logger.logger, event, operation)]
      ensures RuleFor(operation).logger == LoggerFlag(true) ==>
                h.logs == [Warning(FailedToValidateEventMessage(event, operation, DefaultPrefix))]
      ensures RuleFor(operation).logger == LoggerFlag(false) ==> h.logs == []
      ensures RuleFor(operation).throws.ThrowsFactory? ==>
                h.completion == Threw(FactoryError(RuleFor(operation).throws.factory, event, operation))
      ensures RuleFor(operation).throws == ThrowsFlag(true) ==>
                h.completion == Threw(KeyCheckFail(NewKeyCheckFailError(event, operation, DefaultPrefix)))
      ensures RuleFor(operation).throws == ThrowsFlag(false) ==> h.completion == Returned(false)
    {
      Perform(Decide(RuleFor(operation), event, operation))
    }

    /** A name passes (the check returns `true`, with no log) exactly when the
      key array holds it now; any other name is the handler's to judge. */
    function CheckEvent(event: string, operation: Method): (h: Handled)
      reads keys
      ensures h.completion == Returned(true) <==> event in keys[..]
      ensures event in keys[..] ==> h.logs == []
      ensures event !in keys[..] ==> h == OnKeyErrorValidationError(event, operation)
    {
      if event in keys[..] then Handled([], Returned(true))
      else OnKeyErrorValidationError(event, operation)
    }

    /** Registers `listener` when `event` is a key. Otherwise the table is
      left as it was whether the call raises or returns. Reports the log
      entries emitted and the error raised, if any; a key the table inherits
      makes the registry throw. */
    method On(event: string, listener: ListenerId) returns (logs: seq<LogEntry>, raised: Option<RaisedError>)
      modifies base
      ensures logs == CheckEvent(event, Method.On).logs
      ensures event !in keys[..] ==>
                raised == (if CheckEvent(event, Method.On).completion.Threw?
                           then Some(CheckEvent(event, Method.On).completion.error) else None)
      ensures event in keys[..] ==>
                raised == (if ReadsInherited(old(base.listeners), event) then Some(RegistryTypeError) else None)
      ensures event in keys[..] && !ReadsInherited(old(base.listeners), event) ==>
                base.listeners == Attach(old(base.listeners), event, listener)
      ensures event !in keys[..] || ReadsInherited(old(base.listeners), event) ==>
                base.listeners == old(base.listeners)
    {
      var check := CheckEvent(event, Method.On);
      logs := check.logs;
      if check.completion.Threw? {
        raised := Some(check.completion.error);
        return;
      }
      raised := None;
      if !check.completion.value {
        return;
      }
      var outcome := base.On(event, listener);
      if outcome.ThrewTypeError? {
        raised := Some(RegistryTypeError);
      }
    }

    /** Notifies `event` as the registry does when it is a key. Otherwise no
      listener is called, even one the table holds under that name, and the
      outcome (a raise surfacing as a rejected promise) is the handler's. */
    method Notify(event: string, payload: Payload) returns (logs: seq<LogEntry>, raised: Option<RaisedError>, calls: seq<Invocation>)
      ensures logs == CheckEvent(event, Method.Notify).logs
      ensures event !in keys[..] ==>
                raised == (if CheckEvent(event, Method.Notify).completion.Threw?
                           then Some(CheckEvent(event, Method.Notify).completion.error) else None)
      ensures event in keys[..] ==>
                raised == (if ReadsInherited(base.listeners, event) then Some(RegistryTypeError) else None)
      ensures event in keys[..] ==> FansOut(calls, Lookup(base.listeners, event), payload)
      ensures event !in keys[..] ==> calls == []
    {
      var check := CheckEvent(event, Method.Notify);
      logs := check.logs;
      calls := [];
      if check.completion.Threw? {
        raised := Some(check.completion.error);
        return;
      }
      raised := None;
      if !check.completion.value {
        return;
      }
      var outcome;
      outcome, calls := base.Notify(event, payload);
      if outcome.ThrewTypeError? {
        raised := Some(RegistryTypeError);
      }
    }
  }

  /** A store configured with `{ attachment: { key: { logger: false } } }`
      still raises the built-in error on an unknown name, for `on` and for
      `notify` alike, logs nothing, and the error's message names the event,
      the operation and the word "unknown". */
  lemma LoggerOffStillRaisesBuiltIn(s: StrictStore, event: string, operation: Method)
    requires s.rules == MergeRules(Some(StrictStoreRuleSet(Some(RuleGroup(Some(StrictRule(None, Some(LoggerFlag(false)))))), None)))
    requires event !in s.keys[..]
    ensures s.CheckEvent(event, operation).logs == []
    ensures s.CheckEvent(event, operation).completion.Threw?
    ensures s.CheckEvent(event, operation).completion.error.KeyCheckFail?
    ensures var err := s.CheckEvent(event, operation).completion.error.error;
            && err.event == event && err.operation == operation
            && Contains(err.message, event)
            && Contains(err.message, MethodName(operation))
            && Contains(err.message, "unknown")
  {
    MessageMentionsEventMethodAndUnknown(event, operation, DefaultPrefix);
  }
}
