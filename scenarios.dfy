/** Client code that walks through the repository's test cases against the
    stores' contracts alone: each assertion is a claim one of the tests makes. */
module Scenarios {
  import opened Types
  import opened Errors
  import opened Listeners
  import KeyValidation
  import opened Strict

  const Login: string := "user:login"
  const Logout: string := "user:logout"
  const Unknown: string := "account:login"

  /** A fresh key array holding the two known names. */
  method LoginLogout() returns (ks: array<string>)
    ensures fresh(ks) && ks[..] == [Login, Logout]
  {
    ks := new string[2] [Login, Logout];
  }

  /** tests/listener-store.test.ts:48-64 and 87-104 */
  method AttachAndNotify(p: Payload)
  {
    var store := new ListenerStore();
    var outcome := store.On(Login, 1);
    outcome := store.On(Logout, 9);
    outcome := store.On(Login, 2);
    outcome := store.On(Login, 3);
    assert outcome == Completed;
    assert Lookup(store.listeners, Login) == [1, 2, 3];
    assert Lookup(store.listeners, Logout) == [9];
    var calls;
    outcome, calls := store.Notify(Login, p);
    assert calls == [Invocation(1, p), Invocation(2, p), Invocation(3, p)];
  }

  /** tests/listener-store.test.ts:106-143 */
  method RemoveOneByOne(p: Payload)
  {
    var store := new ListenerStore();
    store.listeners := map[Login := [1, 2, 3]];
    var outcome := store.Off(Login, 1);
    assert RemoveFirst([1, 2, 3], 1) == [2, 3];
    var calls;
    outcome, calls := store.Notify(Login, p);
    assert calls == [Invocation(2, p), Invocation(3, p)];

    outcome := store.Off(Login, 2);
    assert RemoveFirst([2, 3], 2) == [3];
    outcome := store.Off(Login, 3);
    assert RemoveFirst([3], 3) == [];
    outcome, calls := store.Notify(Login, p);
    assert calls == [];

    // removing again is a no-op
    var before := store.listeners;
    outcome := store.Off(Login, 3);
    assert outcome == Completed && store.listeners == before;
  }

  /** tests/listener-store.test.ts:145-173: one reference under two events */
  method SameListenerOnTwoEvents(p: Payload, q: Payload)
  {
    var store := new ListenerStore();
    var outcome := store.On(Login, 5);
    outcome := store.On(Logout, 5);
    var calls;
    outcome, calls := store.Notify(Login, p);
    assert calls == [Invocation(5, p)];
    outcome := store.Off(Login, 5);
    outcome, calls := store.Notify(Logout, q);
    assert calls == [Invocation(5, q)];
  }

  /** The table is a plain object: a name it inherits from `Object.prototype`
      makes every registry call throw and leaves the table as it was, while
      an ordinary name registered beside it is unaffected. */
  method InheritedNameThrows(p: Payload)
  {
    var store := new ListenerStore();
    var outcome := store.On("toString", 1);
    assert outcome == ThrewTypeError && store.listeners == map[];
    var calls;
    outcome, calls := store.Notify("constructor", p);
    assert outcome == ThrewTypeError && calls == [];
    outcome := store.Off("__proto__", 1);
    assert outcome == ThrewTypeError && store.listeners == map[];
    outcome := store.On(Login, 1);
    assert outcome == Completed && Lookup(store.listeners, Login) == [1];
  }

  /** tests/store-with-key-validation.test.ts:21-61 */
  method KeyValidationDropsUnknownNames(p: Payload)
  {
    var ks := LoginLogout();
    var store := new KeyValidation.StoreWithKeyValidation(ks);
    var handled, outcome := store.On(Login, 1);
    assert handled == [] && outcome == Completed;
    var calls;
    handled, outcome, calls := store.Notify(Login, p);
    assert calls == [Invocation(1, p)];

    var table := store.base.listeners;
    handled, outcome := store.On("user:register", 2);
    assert handled == [HandlerCall("user:register", Method.On)];
    assert store.base.listeners == table;
    handled, outcome, calls := store.Notify("user:register", p);
    assert handled == [HandlerCall("user:register", Method.Notify)];
    assert calls == [];
  }

  /** The store keeps the caller's key array: a name written into it after
      construction passes from then on, and the name it replaced no longer does. */
  method KeysAreTheCallersArray(p: Payload)
  {
    var ks := new string[2] [Login, Logout];
    var store := new KeyValidation.StoreWithKeyValidation(ks);
    ks[1] := "user:register";
    var handled, outcome := store.On("user:register", 2);
    assert handled == [] && Lookup(store.base.listeners, "user:register") == [2];
    handled, outcome := store.On(Logout, 3);
    assert handled == [HandlerCall(Logout, Method.On)];
  }

  /** tests/strict-store.test.ts:99-114: default raise on notify, even with a
      listener placed in the table under the unknown name */
  method StrictNotifyRaisesBuiltIn(p: Payload)
  {
    var rules := StrictStoreRuleSet(None, Some(RuleGroup(Some(StrictRule(Some(ThrowsFlag(true)), None)))));
    var ks := LoginLogout();
    var store := new StrictStore(ks, Some(rules));
    store.base.listeners := map[Unknown := [7]];
    var logs, raised, calls := store.Notify(Unknown, p);
    assert calls == [];
    assert logs == [];
    assert raised == Some(KeyCheckFail(NewKeyCheckFailError(Unknown, Method.Notify, DefaultPrefix)));
    assert raised.value.error.event == Unknown && raised.value.error.operation == Method.Notify;
  }

  /** tests/strict-store.test.ts:116-136 and 212-231: a factory's error is the one raised */
  method StrictFactoryError(p: Payload, factory: FactoryId)
  {
    var rule := Some(RuleGroup(Some(StrictRule(Some(ThrowsFactory(factory)), None))));
    var ks := LoginLogout();
    var store := new StrictStore(ks, Some(StrictStoreRuleSet(rule, rule)));
    var logs, raised := store.On(Unknown, 1);
    assert raised == Some(FactoryError(factory, Unknown, Method.On));
    assert store.base.listeners == map[];
    var calls;
    logs, raised, calls := store.Notify(Unknown, p);
    assert raised == Some(FactoryError(factory, Unknown, Method.Notify));
    assert calls == [];
  }

  /** tests/strict-store.test.ts:154-171 and 247-265: log only */
  method StrictWarnsOnce(p: Payload)
  {
    var rule := Some(RuleGroup(Some(StrictRule(Some(ThrowsFlag(false)), Some(LoggerFlag(true))))));
    var ks := LoginLogout();
    var store := new StrictStore(ks, Some(StrictStoreRuleSet(rule, rule)));
    var logs, raised := store.On(Unknown, 1);
    assert raised == None;
    assert logs == [Warning(FailedToValidateEventMessage(Unknown, Method.On, DefaultPrefix))];
    assert store.base.listeners == map[];
    var calls;
    logs, raised, calls := store.Notify(Unknown, p);
    assert raised == None && calls == [];
    assert logs == [Warning(FailedToValidateEventMessage(Unknown, Method.Notify, DefaultPrefix))];
  }

  /** tests/strict-store.test.ts:314-341: both log and raise */
  method StrictLogsThenRaises(p: Payload)
  {
    var rule := Some(RuleGroup(Some(StrictRule(Some(ThrowsFlag(true)), Some(LoggerFlag(true))))));
    var ks := LoginLogout();
    var store := new StrictStore(ks, Some(StrictStoreRuleSet(rule, rule)));
    store.base.listeners := map[Unknown := [7]];
    var logs, raised := store.On(Unknown, 7);
    assert |logs| == 1 && raised.Some?;
    assert store.base.listeners == map[Unknown := [7]];
    var logs2, raised2, calls := store.Notify(Unknown, p);
    assert |logs + logs2| == 2 && raised2.Some? && calls == [];
  }

  /** A key the table inherits passes the key check and then makes the
      registry throw, which the store reports as a raised `TypeError`. */
  method StrictInheritedKeyThrows(p: Payload)
  {
    var ks := new string[1] ["toString"];
    assert ks[..] == ["toString"];
    var store := new StrictStore(ks, None);
    var logs, raised := store.On("toString", 1);
    assert logs == [] && raised == Some(RegistryTypeError);
    assert store.base.listeners == map[];
    var calls;
    logs, raised, calls := store.Notify("toString", p);
    assert raised == Some(RegistryTypeError) && calls == [];
  }

  /** The usage example: a known name reaches its listener with the payload
      unchanged, an unknown one raises the built-in error naming it. */
  method DefaultStoreExample(p: Payload, q: Payload)
  {
    var ks := LoginLogout();
    var store := new StrictStore(ks, None);
    var logs, raised := store.On(Login, 1);
    assert raised == None;
    var calls;
    logs, raised, calls := store.Notify(Login, p);
    assert calls == [Invocation(1, p)] && raised == None;
    logs, raised, calls := store.Notify(Unknown, q);
    assert raised.Some? && raised.value.KeyCheckFail?;
    assert raised.value.error.event == Unknown && raised.value.error.operation == Method.Notify;
  }
}
