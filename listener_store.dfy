/** The base registry: a table from event name to the ordered list of
    listeners registered for it, with no notion of legal names. */
module Listeners {

  /** A listener function, known only by its identity (reference equality). */
  type ListenerId = nat

  /** The value handed to listeners; the store only passes it through. */
  type Payload = map<string, string>

  /** One call of a listener with a payload. */
  datatype Invocation = Invocation(listener: ListenerId, payload: Payload)

  type Table = map<string, seq<ListenerId>>

  /** The names `Object.prototype` defines, which the plain `{}` table
      inherits: an event with one of these names and no entry of its own reads
      as a function (or, for `__proto__`, an object), not as a list. */
  const InheritedNames: set<string> := {
    "constructor", "hasOwnProperty", "isPrototypeOf", "propertyIsEnumerable",
    "toLocaleString", "toString", "valueOf", "__proto__",
    "__defineGetter__", "__defineSetter__", "__lookupGetter__", "__lookupSetter__"
  }

  /** `_listeners[event]` finds no entry of its own and reads the inherited
      member instead: a truthy value that is not an array, so pushing onto it,
      iterating it or searching it throws a `TypeError`. */
  predicate ReadsInherited(t: Table, event: string)
  {
    event !in t && event in InheritedNames
  }

  /** No entry of the table has an inherited name. */
  ghost predicate OwnNamesOnly(t: Table)
  {
    forall e :: e in t ==> e !in InheritedNames
  }

  /** How a call of the registry ends: normally, or with the `TypeError` an
      inherited member raises. */
  datatype Outcome = Completed | ThrewTypeError

  /** The listeners registered for `event`; an absent entry reads as none. */
  function Lookup(t: Table, event: string): seq<ListenerId>
  {
    if event in t then t[event] else []
  }

  /** Position of the first occurrence of `x` in `s`, or -1 (`Array.indexOf`). */
  function IndexOf(s: seq<ListenerId>, x: ListenerId): (i: int)
    ensures -1 <= i < |s|
    ensures i == -1 <==> x !in s
    ensures 0 <= i ==> s[i] == x && forall k :: 0 <= k < i ==> s[k] != x
  {
    if s == [] then -1
    else if s[0] == x then 0
    else
      var j := IndexOf(s[1..], x);
      if j == -1 then -1 else j + 1
  }

  /** `s` without the first occurrence of `x`; `s` itself when `x` is absent. */
  function RemoveFirst(s: seq<ListenerId>, x: ListenerId): (r: seq<ListenerId>)
    ensures x !in s ==> r == s
    ensures x in s ==> |r| == |s| - 1
  {
    if s == [] then []
    else if s[0] == x then s[1..]
    else
      assert x in s ==> x in s[1..] by { assert s == [s[0]] + s[1..]; }
      [s[0]] + RemoveFirst(s[1..], x)
  }

  /** Removal takes away exactly one copy of `x`, when there is one. */
  lemma {:induction false} RemoveFirstTakesOneCopy(s: seq<ListenerId>, x: ListenerId)
    ensures multiset(RemoveFirst(s, x)) == multiset(s) - multiset{x}
  {
    if s != [] {
      assert s == [s[0]] + s[1..];
      if s[0] != x {
        RemoveFirstTakesOneCopy(s[1..], x);
        assert multiset(s) - multiset{x} == multiset{s[0]} + (multiset(s[1..]) - multiset{x});
      }
    }
  }

  /** Cutting the first occurrence of `x`, found at index `i`, out of `s`, as
      `splice(i, 1)` does with the index `indexOf` found, is removing it. */
  lemma {:induction false} SpliceRemovesFirst(s: seq<ListenerId>, x: ListenerId, i: int)
    requires 0 <= i < |s| && s[i] == x
    requires forall k :: 0 <= k < i ==> s[k] != x
    ensures s[..i] + s[i + 1..] == RemoveFirst(s, x)
  {
    if i == 0 {
      assert s[..0] + s[1..] == s[1..];
    } else {
      var t := s[1..];
      SpliceRemovesFirst(t, x, i - 1);
      assert s == [s[0]] + t;
      SpliceUnderCons(s[0], t, i - 1);
    }
  }

  /** Cutting index `j + 1` out of `[a] + t` is cutting index `j` out of `t`. */
  lemma SpliceUnderCons(a: ListenerId, t: seq<ListenerId>, j: int)
    requires 0 <= j < |t|
    ensures ([a] + t)[..j + 1] + ([a] + t)[j + 2..] == [a] + (t[..j] + t[j + 1..])
  {
    assert ([a] + t)[..j + 1] == [a] + t[..j];
    assert ([a] + t)[j + 2..] == t[j + 1..];
  }

  /** The table after registering `listener` for `event`: that list gains the
      listener at its end (no de-duplication), every other list is as before. */
  function Attach(t: Table, event: string, listener: ListenerId): (r: Table)
    ensures Lookup(r, event) == Lookup(t, event) + [listener]
    ensures forall e :: e != event ==> Lookup(r, e) == Lookup(t, e)
    ensures r.Keys == t.Keys + {event}
  {
    t[event := Lookup(t, event) + [listener]]
  }

  /** The table after removing `listener` from `event`: the first occurrence
      in that list goes, every other list is as before, and nothing changes at
      all when the event has no list or the listener is not in it. */
  function Detach(t: Table, event: string, listener: ListenerId): (r: Table)
    ensures Lookup(r, event) == RemoveFirst(Lookup(t, event), listener)
    ensures forall e :: e != event ==> Lookup(r, e) == Lookup(t, e)
    ensures r.Keys == t.Keys
    ensures listener !in Lookup(t, event) ==> r == t
  {
    if event in t then t[event := RemoveFirst(t[event], listener)] else t
  }

  /** `calls` are exactly one call per entry of `ls`, in that order, each with `payload`. */
  ghost predicate FansOut(calls: seq<Invocation>, ls: seq<ListenerId>, payload: Payload)
  {
    |calls| == |ls| && forall i :: 0 <= i < |calls| ==> calls[i] == Invocation(ls[i], payload)
  }

  /** Number of times `l` is called in `calls`. */
  function CallsTo(calls: seq<Invocation>, l: ListenerId): nat
  {
    if calls == [] then 0
    else (if calls[0].listener == l then 1 else 0) + CallsTo(calls[1..], l)
  }

  /** A fan-out calls each listener once per registration of it. */
  lemma {:induction false} FanOutCallsEachRegistration(calls: seq<Invocation>, ls: seq<ListenerId>, payload: Payload, l: ListenerId)
    requires FansOut(calls, ls, payload)
    ensures CallsTo(calls, l) == multiset(ls)[l]
  {
    if ls != [] {
      assert FansOut(calls[1..], ls[1..], payload);
      FanOutCallsEachRegistration(calls[1..], ls[1..], payload, l);
      assert ls == [ls[0]] + ls[1..];
    }
  }

  /** The table after registering each of `ls` for `event`, in order. */
  function AttachAll(t: Table, event: string, ls: seq<ListenerId>): Table
    decreases |ls|
  {
    if ls == [] then t else AttachAll(Attach(t, event, ls[0]), event, ls[1..])
  }

  /** Registering `ls` one by one appends `ls` to the event's list, in order,
      and leaves every other event's list alone. */
  lemma {:induction false} AttachAllAppends(t: Table, event: string, ls: seq<ListenerId>)
    ensures Lookup(AttachAll(t, event, ls), event) == Lookup(t, event) + ls
    ensures forall e :: e != event ==> Lookup(AttachAll(t, event, ls), e) == Lookup(t, e)
    decreases |ls|
  {
    if ls != [] {
      AttachAllAppends(Attach(t, event, ls[0]), event, ls[1..]);
      assert Lookup(t, event) + [ls[0]] + ls[1..] == Lookup(t, event) + ls;
    }
  }

  /** The table after removing each of `rs` from `event` once, in order. */
  function DetachAll(t: Table, event: string, rs: seq<ListenerId>): Table
    decreases |rs|
  {
    if rs == [] then t else DetachAll(Detach(t, event, rs[0]), event, rs[1..])
  }

  /** Each removal takes away one registration: what is left of the event's
      list is its old contents less the removed references. */
  lemma {:induction false} DetachAllRemaining(t: Table, event: string, rs: seq<ListenerId>)
    ensures multiset(Lookup(DetachAll(t, event, rs), event)) == multiset(Lookup(t, event)) - multiset(rs)
    decreases |rs|
  {
    if rs != [] {
      var t' := Detach(t, event, rs[0]);
      assert DetachAll(t, event, rs) == DetachAll(t', event, rs[1..]);
      DetachAllRemaining(t', event, rs[1..]);
      RemoveFirstTakesOneCopy(Lookup(t, event), rs[0]);
      assert multiset(Lookup(t', event)) == multiset(Lookup(t, event)) - multiset{rs[0]};
      assert rs == [rs[0]] + rs[1..];
      assert multiset(rs) == multiset{rs[0]} + multiset(rs[1..]);
      MultisetDifferenceOfSum(multiset(Lookup(t, event)), multiset{rs[0]}, multiset(rs[1..]));
    }
  }

  lemma MultisetDifferenceOfSum(a: multiset<ListenerId>, b: multiset<ListenerId>, c: multiset<ListenerId>)
    ensures (a - b) - c == a - (b + c)
  {
    forall z ensures ((a - b) - c)[z] == (a - (b + c))[z] {}
  }

  /** Removals under `event` never touch another event's list, even one that
      holds the same references. */
  lemma {:induction false} DetachAllKeepsOthers(t: Table, event: string, rs: seq<ListenerId>, other: string)
    requires other != event
    ensures Lookup(DetachAll(t, event, rs), other) == Lookup(t, other)
    decreases |rs|
  {
    if rs != [] {
      DetachAllKeepsOthers(Detach(t, event, rs[0]), event, rs[1..], other);
    }
  }

  /** Once every registration of `event` has been removed once, in any order,
      the event has no listeners left, so a later notify calls none of them. */
  lemma DetachEveryRegistration(t: Table, event: string, rs: seq<ListenerId>)
    requires multiset(rs) == multiset(Lookup(t, event))
    ensures Lookup(DetachAll(t, event, rs), event) == []
  {
    DetachAllRemaining(t, event, rs);
  }

  /** Removing the last element of a list whose other entries differ from it. */
  lemma {:induction false} RemoveFirstOfFreshAppend(s: seq<ListenerId>, x: ListenerId)
    requires x !in s
    ensures RemoveFirst(s + [x], x) == s
  {
    if s == [] {
      assert s + [x] == [x];
    } else {
      var u := s + [x];
      assert u[0] == s[0] && s[0] != x;
      assert u[1..] == s[1..] + [x];
      assert x !in s[1..];
      RemoveFirstOfFreshAppend(s[1..], x);
      assert RemoveFirst(u, x) == [s[0]] + RemoveFirst(u[1..], x);
      assert [s[0]] + s[1..] == s;
    }
  }

  /** Removing a listener that was not yet registered, right after registering
      it, gives back the list the event had before. */
  lemma DetachUndoesAttach(t: Table, event: string, listener: ListenerId)
    requires listener !in Lookup(t, event)
    ensures Lookup(Detach(Attach(t, event, listener), event, listener), event) == Lookup(t, event)
  {
    RemoveFirstOfFreshAppend(Lookup(t, event), listener);
  }

  /** The registry object. `listeners` is its `_listeners` table, whose entries
      the methods replace in place. */
  class ListenerStore {
    var listeners: Table

    constructor ()
      ensures listeners == map[]
    {
      listeners := map[];
    }

    /** Registers `listener` for `event`, creating the list when absent. A
      name the table inherits is truthy, so no list is created, and the push
      onto the inherited member throws. */
    method On(event: string, listener: ListenerId) returns (outcome: Outcome)
      modifies this
      ensures outcome.ThrewTypeError? <==> ReadsInherited(old(listeners), event)
      ensures outcome.Completed? ==> listeners == Attach(old(listeners), event, listener)
      ensures outcome.ThrewTypeError? ==> listeners == old(listeners)
      ensures OwnNamesOnly(old(listeners)) ==> OwnNamesOnly(listeners)
    {
      if event !in listeners {
        if event in InheritedNames {
          return ThrewTypeError;
        }
        listeners := listeners[event := []];
      }
      listeners := listeners[event := listeners[event] + [listener]];
      outcome := Completed;
    }

    /** Calls every listener of `event`, in list order, with `payload`, and
      returns the calls made; none when the event has no list, and none when
      the name is inherited, where `forEach` throws before the first call.
      The table is not modified (the method may change nothing). */
    method Notify(event: string, payload: Payload) returns (outcome: Outcome, calls: seq<Invocation>)
      ensures outcome.ThrewTypeError? <==> ReadsInherited(listeners, event)
      ensures |calls| == |Lookup(listeners, event)|
      ensures forall i :: 0 <= i < |calls| ==> calls[i] == Invocation(Lookup(listeners, event)[i], payload)
    {
      calls := [];
      outcome := Completed;
      if event in listeners {
        var ls := listeners[event];
        var i := 0;
        while i < |ls|
          invariant 0 <= i <= |ls|
          invariant |calls| == i
          invariant forall k :: 0 <= k < i ==> calls[k] == Invocation(ls[k], payload)
        {
          calls := calls + [Invocation(ls[i], payload)];
          i := i + 1;
        }
      } else if event in InheritedNames {
        outcome := ThrewTypeError;
      }
    }

    /** Removes the first occurrence of `listener` from `event`'s list; a
      missing list or listener leaves the table as it was, and an inherited
      name throws at `indexOf`, also leaving it as it was. */
    method Off(event: string, listener: ListenerId) returns (outcome: Outcome)
      modifies this
      ensures outcome.ThrewTypeError? <==> ReadsInherited(old(listeners), event)
      ensures listeners == Detach(old(listeners), event, listener)
    {
      outcome := Completed;
      if event in listeners {
        var ls := listeners[event];
        var index := IndexOf(ls, listener);
        if index != -1 {
          SpliceRemovesFirst(ls, listener, index);
          listeners := listeners[event := ls[..index] + ls[index + 1..]];
        }
      } else if event in InheritedNames {
        outcome := ThrewTypeError;
      }
    }
  }
}
