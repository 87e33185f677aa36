/**
  The few pieces of Python's semantics that the dashboard handlers rely on:
  the values a decoded token may carry, truthiness (`if not x`), `dict.get`,
  the short-circuit `or`, membership in a string-keyed `dict`, and the
  exceptions a call may raise instead of returning.
 */
module PyValues {

  /** `request.headers.get(...)`: a header value or Python's `None`. */
  datatype Option<+T> = None | Some(value: T)

  /** A value decoded from a token's JSON payload (an `int` or a `float` is a `Num`). */
  datatype Value =
    | Null
    | Bool(b: bool)
    | Num(n: real)
    | Str(s: string)
    | List(items: seq<Value>)
    | Dict(entries: map<string, Value>)

  /** The exception classes the handlers tell apart. `ValueError` stands for every
      class derived from it; `HttpException` is what Flask's `abort(code)` raises. */
  datatype Exception =
    | HttpException(code: int)
    | ValueError
    | TypeError
    | OtherException

  /** The outcome of a Python call: it returns a value or raises an exception. */
  datatype Flow<+T> = Return(value: T) | Raise(exc: Exception)

  /** Python truthiness: `None`, `False`, zero, and empty strings, lists and dicts are falsy. */
  predicate Truthy(v: Value)
    ensures !Truthy(v) <==> v in {Null, Bool(false), Num(0.0), Str(""), List([]), Dict(map[])}
  {
    match v
    case Null => false
    case Bool(b) => b
    case Num(n) => n != 0.0
    case Str(s) => s != ""
    case List(items) => items != []
    case Dict(entries) => entries != map[]
  }

  /** Only lists and dicts are unhashable among the values a JSON payload can hold. */
  predicate Hashable(v: Value)
  {
    !v.List? && !v.Dict?
  }

  /** `d.get(k)`: the stored value, or `None` when the key is absent. */
  function DictGet(d: map<string, Value>, k: string): (r: Value)
    ensures k in d ==> r == d[k]
    ensures r != Null ==> k in d && d[k] == r
  {
    if k in d then d[k] else Null
  }

  /** An optional header as the Python value the handler sees. */
  function FromOption(h: Option<string>): Value
  {
    match h
    case None => Null
    case Some(s) => Str(s)
  }

  /** `a or b`: `a` when it is truthy, `b` otherwise (not coerced to a bool). */
  function Or(a: Value, b: Value): (r: Value)
    ensures r == a || r == b
    ensures Truthy(r) <==> Truthy(a) || Truthy(b)
    ensures Truthy(a) ==> r == a
    ensures !Truthy(a) ==> r == b
  {
    if Truthy(a) then a else b
  }

  /** `key in d` for a dict whose keys are all strings: an unhashable key raises
      `TypeError`, a hashable key that is not a string is never equal to a key,
      and a string is compared exactly, with no normalisation. */
  function DictContains<V>(d: map<string, V>, key: Value): (r: Flow<bool>)
    ensures r.Raise? <==> !Hashable(key)
    ensures r.Raise? ==> r.exc == TypeError
    ensures r == Return(true) <==> key.Str? && key.s in d
  {
    if !Hashable(key) then Raise(TypeError) else Return(key.Str? && key.s in d)
  }
}
