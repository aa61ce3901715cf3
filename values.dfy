/** JSON values as they travel between the station server and the map client,
    and the two languages' rules for which values a condition treats as true.
    The server tests values with Python's truth test, the client with
    JavaScript's ToBoolean, and the two disagree on empty arrays and objects. */
module Values {

  datatype Option<+T> = None | Some(value: T)

  /** A decoded JSON value. Numbers are kept as opaque reals: no
      floating-point rounding and no NaN. */
  datatype Value =
    | Null
    | Bool(b: bool)
    | Num(n: real)
    | Str(s: string)
    | Arr(items: seq<Value>)
    | Obj(fields: map<string, Value>)

  /** Python's truth test (`if x:`): None, False, zero and the empty string,
      list and dict are false; everything else is true. */
  predicate PyTruthy(v: Value) {
    match v
    case Null => false
    case Bool(b) => b
    case Num(n) => n != 0.0
    case Str(s) => s != ""
    case Arr(items) => items != []
    case Obj(fields) => fields != map[]
  }

  /** JavaScript's ToBoolean on a property that may be `undefined` (None):
      undefined, null, false, zero and "" are false; every array and object
      is true, even an empty one. */
  predicate JsTruthy(v: Option<Value>) {
    match v
    case None => false
    case Some(Null) => false
    case Some(Bool(b)) => b
    case Some(Num(n)) => n != 0.0
    case Some(Str(s)) => s != ""
    case Some(Arr(_)) => true
    case Some(Obj(_)) => true
  }

  /** Python's `d.get(key, default)`: the default stands in only when the key
      is absent, not when it is present with a null value. */
  function PyGet(fields: map<string, Value>, key: string, default: Value): Value {
    if key in fields then fields[key] else default
  }
}
