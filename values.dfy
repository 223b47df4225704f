// JavaScript values as the promise library sees them: plain data, references
// to promise instances, arrays and plain objects (the records built by
// allSettled and the error objects).

module Values {

  datatype Option<T> = None | Some(value: T)

  /** The three states of a promise (the `Status` enum of the library's constants). */
  datatype Status = Pending | Fulfilled | Rejected

  /** The string tag of a status, as it appears in an allSettled record. */
  function StatusTag(s: Status): string
  {
    match s
    case Pending => "pending"
    case Fulfilled => "fulfilled"
    case Rejected => "rejected"
  }

  /** A JavaScript value. `PromiseRef(id)` is a reference to the promise
      instance stored at `id` in the heap; `Obj` is a plain object given by
      its own properties in insertion order. */
  datatype Value =
    | Undef
    | Num(n: int)
    | Str(s: string)
    | PromiseRef(id: nat)
    | Array(items: seq<Value>)
    | Obj(fields: seq<(string, Value)>)

  /** The outcome of calling a piece of user code: it returns or it throws. */
  datatype Completion = Return(result: Value) | Throw(error: Value)

  /** Text of the AggregateError raised by `any` (test/index.test.js:133). */
  const AllRejectedMessage: string := "All promises were rejected"

  /** Text of the TypeError raised by the combinators on a non-array input.
      The library takes it from its constants module, which is not part of
      this model; only its identity matters here. */
  const ArrayRequiredMessage: string := "Argument must be an array"

  /** Text of the TypeError the host raises when `promise.then(...)` is
      called on a value that has no `then` method. The wording is the
      host's (V8). */
  const NotCallableMessage: string := "promise.then is not a function"

  /** Text of the TypeError the host raises when `.then` is looked up on
      `undefined` itself. The wording is the host's (V8). */
  const UndefinedThenMessage: string := "Cannot read properties of undefined (reading 'then')"

  /** The error `promise.then(...)` throws in all's forEach when `promise`
      is no promise: reading a property of `undefined` fails, and on any
      other value the property is missing and the call fails. */
  function ThenLookupError(v: Value): (e: Value)
    requires !v.PromiseRef?
    ensures Get(e, "name") == Some(Str("TypeError"))
    ensures v.Undef? ==> Get(e, "message") == Some(Str(UndefinedThenMessage))
    ensures !v.Undef? ==> Get(e, "message") == Some(Str(NotCallableMessage))
  {
    if v.Undef? then NewTypeError(UndefinedThenMessage) else NewTypeError(NotCallableMessage)
  }

  /** Every promise reference among the values `vs` names one of the
      `count` allocated instances: a program can only hold references to
      existing promises. */
  predicate AllAllocated(vs: seq<Value>, count: nat)
  {
    forall i | 0 <= i < |vs| :: vs[i].PromiseRef? ==> vs[i].id < count
  }

  /** The property `key` of a plain object, first occurrence. */
  function Lookup(fields: seq<(string, Value)>, key: string): Option<Value>
  {
    if fields == [] then None
    else if fields[0].0 == key then Some(fields[0].1)
    else Lookup(fields[1..], key)
  }

  /** Property access `v[key]`; `None` stands for a missing property. */
  function Get(v: Value, key: string): Option<Value>
  {
    if v.Obj? then Lookup(v.fields, key) else None
  }

  function MakeError(name: string, message: string): (e: Value)
    ensures Get(e, "name") == Some(Str(name))
    ensures Get(e, "message") == Some(Str(message))
  {
    var fields := [("name", Str(name)), ("message", Str(message))];
    assert fields[1..] == [("message", Str(message))];
    assert Lookup(fields[1..], "message") == Some(Str(message));
    Obj(fields)
  }

  /** `new AggregateError(message)`: an error-like record whose name is
      "AggregateError" (`message || ''` keeps a string message as it is). */
  function NewAggregateError(message: string): (e: Value)
    ensures Get(e, "name") == Some(Str("AggregateError"))
    ensures Get(e, "message") == Some(Str(message))
  {
    MakeError("AggregateError", message)
  }

  /** `new TypeError(message)`. */
  function NewTypeError(message: string): (e: Value)
    ensures Get(e, "name") == Some(Str("TypeError"))
    ensures Get(e, "message") == Some(Str(message))
  {
    MakeError("TypeError", message)
  }

  /** JavaScript truthiness: `undefined`, `0` and `''` are falsy; objects,
      arrays (even empty ones) and promise instances are truthy. */
  predicate Truthy(v: Value)
  {
    match v
    case Undef => false
    case Num(n) => n != 0
    case Str(s) => s != ""
    case _ => true
  }

  /** `isArray(x)`: `x && x.constructor === Array`. The truthiness test
      never refuses an array, so exactly the arrays pass, the empty one
      included. */
  function IsArray(v: Value): (b: bool)
    ensures b <==> v.Array?
  {
    Truthy(v) && v.Array?
  }

  /** The record allSettled builds for one input: `{status, value}` for a
      fulfilment and `{status, reason}` for a rejection. */
  function SettledRecord(st: Status, v: Value): (r: Value)
    requires st != Pending
    ensures Get(r, "status") == Some(Str(StatusTag(st)))
    ensures st == Fulfilled ==> Get(r, "value") == Some(v) && Get(r, "reason") == None
    ensures st == Rejected ==> Get(r, "reason") == Some(v) && Get(r, "value") == None
  {
    var key := if st == Fulfilled then "value" else "reason";
    var fields := [("status", Str(StatusTag(st))), (key, v)];
    assert fields[1..] == [(key, v)];
    assert fields[1..][1..] == [];
    assert Lookup(fields[1..], key) == Some(v);
    assert key == "value" ==> Lookup(fields[1..], "reason") == None;
    assert key == "reason" ==> Lookup(fields[1..], "value") == None;
    Obj(fields)
  }
}
