/** The "unmocked" guard returned for a call that has no usable stub, and the
    `whenInTests(...).return(v)` hook that reaches its hidden setter.

    The guard is a proxy whose handler is a fixed dispatch over the proxy
    traps. Here the proxy is the datatype `Guard` (the reason text and the
    captured setter), a trap invocation is a `Trap`, and what the handler does
    with it is the `Outcome` computed by `Handle`. */
module UnmockedGuard {
  import opened PropertyKeys

  /** One invocation of a proxy trap, with the arguments the trap receives
      (the proxy's own target is always the throwing function, so it is not
      carried). `V` stands for arbitrary JavaScript values. */
  datatype Trap<V> =
    | Get(key: PropertyKey, receiver: V)
    | Set(key: PropertyKey, value: V, receiver: V)
    | GetPrototypeOf
    | SetPrototypeOf(proto: V)
    | IsExtensible
    | PreventExtensions
    | GetOwnPropertyDescriptor(key: PropertyKey)
    | Has(key: PropertyKey)
    | DeleteProperty(key: PropertyKey)
    | DefineProperty(key: PropertyKey, attributes: V)
    | Enumerate  // a handler method that engines since ECMAScript 2016 never invoke
    | OwnKeys
    | Apply(thisArg: V, args: seq<V>)
    | Construct(args: seq<V>, newTarget: V)

  /** What a trap does: hand back the captured setter, hand back a
      zero-argument function that yields `text`, or throw an `Error` whose
      message is `message`. */
  datatype Outcome<S> =
    | ReturnsSetter(setter: S)
    | ReturnsToString(text: string)
    | Throws(message: string)

  /** The proxy built by `valueIfNoReturnValueSet`: `reason` is the text of
      `whyNoMatch.reasonAndAdvice()`, `setter` the `futureReturnValueSetter`. */
  datatype Guard<S> = Guard(reason: string, setter: S)

  function ValueIfNoReturnValueSet<S>(whyNoMatch: string, futureReturnValueSetter: S): (g: Guard<S>)
    ensures Handle(g, Get(SetReturnValueSymbol, ())) == ReturnsSetter(futureReturnValueSetter)
    ensures Handle(g, Get(ToStringKey, ())) == ReturnsToString(whyNoMatch)
    ensures forall args: seq<()> :: Handle(g, Apply((), args)) == Throws(whyNoMatch)
    ensures forall key: PropertyKey :: Handle(g, Set(key, (), ())) == Throws(whyNoMatch)
  {
    Guard(whyNoMatch, futureReturnValueSetter)
  }

  /** `hasNotBeenMockedYet`: throws the reason text. */
  function NotMockedYet<S>(g: Guard<S>): Outcome<S>
  {
    Throws(g.reason)
  }

  /** The `get` trap: only the private symbol and `"toString"` escape. */
  function GetTrap<S>(g: Guard<S>, key: PropertyKey): Outcome<S>
  {
    if key == SetReturnValueSymbol then ReturnsSetter(g.setter)
    else if key == ToStringKey then ReturnsToString(g.reason)
    else NotMockedYet(g)
  }

  /** The handler class `ValueIfNoReturnValueSet`, trap by trap. */
  function Handle<S, V>(g: Guard<S>, t: Trap<V>): (o: Outcome<S>)
    ensures o.ReturnsSetter? <==> t.Get? && t.key == SetReturnValueSymbol
    ensures o.ReturnsSetter? ==> o.setter == g.setter
    ensures o.ReturnsToString? <==> t.Get? && t.key == ToStringKey
    ensures o.ReturnsToString? ==> o.text == g.reason
    ensures o.Throws? ==> o.message == g.reason
  {
    match t
    case Get(key, _) => GetTrap(g, key)
    // `set` throws before its `return false` is reached
    case Set(_, _, _) => NotMockedYet(g)
    case GetPrototypeOf => NotMockedYet(g)
    case SetPrototypeOf(_) => NotMockedYet(g)
    case IsExtensible => NotMockedYet(g)
    case PreventExtensions => NotMockedYet(g)
    case GetOwnPropertyDescriptor(_) => NotMockedYet(g)
    case Has(_) => NotMockedYet(g)
    case DeleteProperty(_) => NotMockedYet(g)
    case DefineProperty(_, _) => NotMockedYet(g)
    case Enumerate => NotMockedYet(g)
    case OwnKeys => NotMockedYet(g)
    case Apply(_, _) => NotMockedYet(g)
    case Construct(_, _) => NotMockedYet(g)
  }

  /** A trap with every JavaScript value it received replaced by `()`: only
      which trap ran and on which key remain. */
  function Erase<V>(t: Trap<V>): (e: Trap<()>)
    ensures e.Get? == t.Get? && e.Set? == t.Set?
    ensures (t.Get? || t.Set?) ==> e.key == t.key
  {
    match t
    case Get(key, _) => Get(key, ())
    case Set(key, _, _) => Set(key, (), ())
    case GetPrototypeOf => GetPrototypeOf
    case SetPrototypeOf(_) => SetPrototypeOf(())
    case IsExtensible => IsExtensible
    case PreventExtensions => PreventExtensions
    case GetOwnPropertyDescriptor(key) => GetOwnPropertyDescriptor(key)
    case Has(key) => Has(key)
    case DeleteProperty(key) => DeleteProperty(key)
    case DefineProperty(key, _) => DefineProperty(key, ())
    case Enumerate => Enumerate
    case OwnKeys => OwnKeys
    case Apply(_, _) => Apply((), [])
    case Construct(_, _) => Construct([], ())
  }

  /** The outcome depends only on which trap ran and on its key, never on the
      value being set, the receiver or the call arguments. */
  lemma OutcomeIgnoresValues<S, V>(g: Guard<S>, t: Trap<V>)
    ensures Handle(g, t) == Handle(g, Erase(t))
  {
  }

  /** Every outcome that is not one of the two escapes is a throw, and the
      thrown message is the same whichever trap raised it. */
  lemma SameReasonEverywhere<S, V, W>(g: Guard<S>, t1: Trap<V>, t2: Trap<W>)
    requires !(t1.Get? && t1.key in {SetReturnValueSymbol, ToStringKey})
    requires !(t2.Get? && t2.key in {SetReturnValueSymbol, ToStringKey})
    ensures Handle(g, t1) == Handle(g, t2) == Throws(g.reason)
  {
  }

  /** Assignment through the guard never completes, not even under the
      hidden key. */
  lemma SetAlwaysThrows<S, V>(g: Guard<S>, key: PropertyKey, value: V, receiver: V)
    ensures Handle(g, Set(key, value, receiver)) == Throws(g.reason)
  {
  }

  /** The `futureReturnValueSetter` closure, observed through the values it
      has been called with, oldest first. What it does with them belongs to
      the mock engine and is not part of this model. */
  class RecordingSetter<V> {
    var calls: seq<V>

    constructor ()
      ensures calls == []
    {
      calls := [];
    }

    method Invoke(returnValue: V)
      modifies this
      ensures calls == old(calls) + [returnValue]
    {
      calls := calls + [returnValue];
    }
  }

  /** A value handed to `whenInTests`: an unmocked guard whose setter records
      its calls, or any other JavaScript value. */
  datatype MockValue<V> =
    | Unmocked(guard: Guard<RecordingSetter<V>>)
    | Plain(value: V)

  /** How a call of `return` ends. On an ordinary value the hidden key reads
      as `undefined` and calling that throws a `TypeError`; on `null` or
      `undefined` the read itself throws the `TypeError`. */
  datatype Completion =
    | Completed
    | ThrewTypeError

  /** The object returned by `whenInTests(returnFromMock)`. */
  datatype ReturnSetter<V> = ReturnSetter(returnFromMock: MockValue<V>)

  /** Captures the value; nothing is read from it until `return` is called. */
  function WhenInTests<V>(returnFromMock: MockValue<V>): ReturnSetter<V>
  {
    ReturnSetter(returnFromMock)
  }

  /** The objects a call of `return` may change: the guard's setter, if any. */
  function SetterOf<V>(x: MockValue<V>): set<object>
  {
    if x.Unmocked? then {x.guard.setter} else {}
  }

  /** `whenInTests(returnFromMock).return(returnValue)`: read the hidden key
      through the guard's `get` trap and call what comes back. */
  method Return<V>(rs: ReturnSetter<V>, returnValue: V) returns (c: Completion)
    modifies SetterOf(rs.returnFromMock)
    ensures rs.returnFromMock.Unmocked? ==>
      c == Completed &&
      rs.returnFromMock.guard.setter.calls == old(rs.returnFromMock.guard.setter.calls) + [returnValue]
    ensures rs.returnFromMock.Plain? ==> c == ThrewTypeError
  {
    match rs.returnFromMock
    case Plain(_) =>
      c := ThrewTypeError;
    case Unmocked(g) =>
      var hook := Handle(g, Get(SetReturnValueSymbol, ()));
      // the `get` trap answers the hidden key with the setter, never a throw
      assert hook.ReturnsSetter?;
      hook.setter.Invoke(returnValue);
      c := Completed;
  }

  /** The whole chain `whenInTests(returnFromMock).return(returnValue)`. */
  method WhenInTestsReturn<V>(returnFromMock: MockValue<V>, returnValue: V) returns (c: Completion)
    modifies SetterOf(returnFromMock)
    ensures returnFromMock.Unmocked? ==>
      c == Completed &&
      returnFromMock.guard.setter.calls == old(returnFromMock.guard.setter.calls) + [returnValue]
    ensures returnFromMock.Plain? ==> c == ThrewTypeError
  {
    c := Return(WhenInTests(returnFromMock), returnValue);
  }
}
