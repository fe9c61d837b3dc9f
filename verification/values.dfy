/**
 The Python values a job carries and the worker yields: JSON-shaped data
 (with integer numbers only), together with the two pieces of Python
 semantics the worker relies on, truthiness and `dict.get`.
 */
module Values {

  /** A JSON-compatible Python value. `Null` is Python's `None`; an `Object`
      is a `dict` with string keys. */
  datatype Value =
    | Null
    | Bool(b: bool)
    | Int(i: int)
    | Str(s: string)
    | Array(items: seq<Value>)
    | Object(fields: map<string, Value>)

  /** Python's `bool(v)`: `None`, `False`, zero and empty containers are falsy. */
  predicate Truthy(v: Value) {
    match v
    case Null => false
    case Bool(b) => b
    case Int(i) => i != 0
    case Str(s) => |s| > 0
    case Array(items) => |items| > 0
    case Object(fields) => |fields| > 0
  }

  /** Python's `d.get(key, default)`. */
  function Get(d: map<string, Value>, key: string, default: Value): (v: Value) {
    if key in d then d[key] else default
  }

  /** `type(v).__name__`, as Python prints it in error messages. */
  function TypeName(v: Value): (name: string) {
    match v
    case Null => "NoneType"
    case Bool(_) => "bool"
    case Int(_) => "int"
    case Str(_) => "str"
    case Array(_) => "list"
    case Object(_) => "dict"
  }

  /** `s.endswith(suffix)`. */
  predicate EndsWith(s: string, suffix: string) {
    |suffix| <= |s| && s[|s| - |suffix|..] == suffix
  }

  /** The falsy values are exactly the six "empty" ones. */
  lemma FalsyValues(v: Value)
    ensures !Truthy(v) <==> v in {Null, Bool(false), Int(0), Str(""), Array([]), Object(map[])}
  {
  }
}

/** Failure-carrying results, used both for calls that may raise and for the
    outcome of a whole job. */
module Outcomes {

  datatype Result<+T, +E> = Ok(value: T) | Err(error: E)

  /** The outcome of a call that either returns a `T` or raises an exception
      whose `str()` is the message. */
  type Outcome<+T> = Result<T, string>

  /** The exceptions that escape a job instead of becoming an error unit. */
  datatype Fault =
    | MissingInput               // `job["input"]` raised KeyError
    | InputNotAMapping           // the input has no `.get`: it is not a dict
    | ListingRaised(message: string)  // `models.list()` raised before any unit
    | NoModels                   // `.data[0]` of an empty model listing
}
