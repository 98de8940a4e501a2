/**
  JSON values as the backend handles them after `json.load`, together with the
  pieces of Python semantics the handlers rely on: `dict.get`, `==` between
  values of different numeric types, truthiness, and the errors a handler
  turns into an HTTP status.
 */
module Json {

  datatype Option<+T> = None | Some(value: T)

  /** A decoded JSON document. Python keeps ints and floats apart, so does this. */
  datatype Value =
    | Null
    | Bool(b: bool)
    | Int(i: int)
    | Real(r: real)
    | Str(s: string)
    | Arr(items: seq<Value>)
    | Obj(fields: map<string, Value>)

  /** A JSON object: one row of a table, or a request body. */
  type Record = map<string, Value>

  /** What a Python exception escaping a handler was about. */
  datatype Fault = KeyFault(key: string) | TypeFault | AttributeFault

  /** The two `HTTPException`s the handlers raise, and any other exception. */
  datatype Error =
    | BadRequest(detail: string)
    | NotFound(detail: string)
    | Uncaught(fault: Fault)

  datatype Result<+T> = Ok(value: T) | Err(error: Error)

  /** The status code the web framework answers with. */
  function Status(e: Error): (code: int)
    ensures code == 400 <==> e.BadRequest?
    ensures code == 404 <==> e.NotFound?
    ensures code == 500 <==> e.Uncaught?
  {
    match e
    case BadRequest(_) => 400
    case NotFound(_) => 404
    case Uncaught(_) => 500
  }

  /** `d.get(key, default)` */
  function Get(d: Record, key: string, default: Value): (r: Value)
    ensures key in d ==> r == d[key]
    ensures key !in d ==> r == default
  {
    if key in d then d[key] else default
  }

  /** The number a value stands for in arithmetic and ordering: `bool` is an `int` in Python. */
  function NumVal(v: Value): Option<real>
  {
    match v
    case Bool(b) => Some(if b then 1.0 else 0.0)
    case Int(i) => Some(i as real)
    case Real(r) => Some(r)
    case _ => None
  }

  /** Python's `a == b`: numbers compare by value across bool, int and float. */
  predicate PyEquals(a: Value, b: Value)
    ensures a == b ==> PyEquals(a, b)
    ensures a.Bool? && b.Int? ==> (PyEquals(a, b) <==> b.i == if a.b then 1 else 0)
    ensures a.Int? && b.Real? ==> (PyEquals(a, b) <==> a.i as real == b.r)
    ensures !a.Bool? && !a.Int? && !a.Real? ==> (PyEquals(a, b) <==> a == b)
  {
    if NumVal(a).Some? && NumVal(b).Some? then NumVal(a).value == NumVal(b).value
    else a == b
  }

  /** Python's truth value of a decoded JSON value. */
  predicate Truthy(v: Value)
    ensures !Truthy(v) <==> v in {Null, Bool(false), Int(0), Real(0.0), Str(""), Arr([]), Obj(map[])}
  {
    match v
    case Null => false
    case Bool(b) => b
    case Int(i) => i != 0
    case Real(r) => r != 0.0
    case Str(s) => s != ""
    case Arr(xs) => xs != []
    case Obj(m) => m != map[]
  }

  /** Python's `==` on decoded values is an equivalence relation. */
  lemma PyEqualsIsEquivalence(a: Value, b: Value, c: Value)
    ensures PyEquals(a, a)
    ensures PyEquals(a, b) ==> PyEquals(b, a)
    ensures PyEquals(a, b) && PyEquals(b, c) ==> PyEquals(a, c)
  {
  }

  /** An integer is equal, in Python's sense, to the values 1 == True and 1 == 1.0 allow. */
  lemma PyEqualsInt(v: Value, n: int)
    ensures PyEquals(v, Int(n)) <==> NumVal(v) == Some(n as real)
  {
  }
}
