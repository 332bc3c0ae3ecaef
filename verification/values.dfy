/** Decoded JSON values, the driver's exceptions, and the wrappers used to return them. */
module Values {

  datatype Option<+T> = None | Some(value: T) {
    function GetOr(default: T): T {
      match this
      case Some(v) => v
      case None => default
    }
  }

  /** A decoded JSON value as the driver holds it; `Null` stands for Python's `None`. */
  datatype Value =
    | Null
    | Bool(b: bool)
    | Int(i: int)
    | Str(s: string)
    | List(items: seq<Value>)
    | Dict(fields: map<string, Value>)

  /** Python truthiness of a decoded value (`if x:`). */
  predicate Truthy(v: Value) {
    match v
    case Null => false
    case Bool(b) => b
    case Int(i) => i != 0
    case Str(s) => s != ""
    case List(items) => items != []
    case Dict(fields) => fields != map[]
  }

  /** Truthiness of an optional string argument (`if uri:`). */
  predicate Given(s: Option<string>) {
    s.Some? && s.value != ""
  }

  /** An optional string is given exactly when it is present and its string value is truthy. */
  lemma GivenIsTruthy(s: Option<string>)
    ensures Given(s) <==> s.Some? && Truthy(Str(s.value))
  {
  }

  /** `"%s" % x` for an optional string: `None` prints as "None". */
  function PyStr(s: Option<string>): string {
    match s
    case Some(v) => v
    case None => "None"
  }

  /** What a NotFoundException reports as missing. */
  datatype Missing = MissingVertex | MissingEdge | MissingOrigin | MissingDestination | MissingIndex

  /** The exceptions the core raises or lets through. */
  datatype Error =
    | NotReady                // NotReadyException: data read from a pending future
    | NotFound(what: Missing) // NotFoundException
    | RestError(status: int)  // RESTException carrying the HTTP status
    | KeyError(key: string)
    | TypeError
    | ValueError
    | AttributeError
    | AssertionError
    | IndexError
    | StopIteration

  datatype Result<+T> = Ok(value: T) | Err(error: Error) {
    predicate IsFailure() {
      Err?
    }

    function PropagateFailure<U>(): Result<U>
      requires Err?
    {
      Err(error)
    }

    function Extract(): T
      requires Ok?
    {
      value
    }
  }

  datatype Outcome = Pass | Fail(error: Error)

  /** `v[key]` on a decoded value: only a dict can be subscripted by a string. */
  function Item(v: Value, key: string): (r: Result<Value>)
    ensures r.Ok? <==> v.Dict? && key in v.fields
    ensures r.Ok? ==> r.value == v.fields[key]
    ensures v.Dict? && key !in v.fields ==> r == Err(KeyError(key))
    ensures !v.Dict? ==> r == Err(TypeError)
  {
    match v
    case Dict(f) => if key in f then Ok(f[key]) else Err(KeyError(key))
    case _ => Err(TypeError)
  }

  /** `v[key] = x` on a decoded value: the dict with that one key rebound. */
  function Assign(v: Value, key: string, x: Value): (r: Result<Value>)
    ensures r.Ok? <==> v.Dict?
    ensures r.Ok? ==> r.value.Dict? && r.value.fields.Keys == v.fields.Keys + {key}
  {
    match v
    case Dict(f) => Ok(Dict(f[key := x]))
    case _ => Err(TypeError)
  }

  /** What iterating over a decoded value goes through: a dict's keys, or a list's items. */
  datatype Iteration = KeysOf(keys: set<string>) | ItemsOf(items: seq<Value>)

  /**
   * `v.__iter__()`: a dict iterates over its keys, in no particular order, and a list over
   * its items; a string, a number, a boolean and `None` have no `__iter__` in Python 2.
   */
  function Iterate(v: Value): (r: Result<Iteration>)
    ensures r.Ok? && r.value.KeysOf? <==> v.Dict?
    ensures r.Ok? && r.value.KeysOf? ==> forall k :: k in r.value.keys <==> Item(v, k).Ok?
    ensures r.Ok? && r.value.ItemsOf? <==> v.List?
    ensures r.Ok? && r.value.ItemsOf? ==> r.value.items == v.items
    ensures r.Err? ==> r.error == AttributeError
  {
    match v
    case Dict(f) => Ok(KeysOf(f.Keys))
    case List(items) => Ok(ItemsOf(items))
    case _ => Err(AttributeError)
  }

  /** Reading back after `v[key] = x` gives `x`, and every other key reads as before. */
  lemma ItemAfterAssign(v: Value, key: string, x: Value, other: string)
    requires v.Dict?
    ensures Item(Assign(v, key, x).value, key) == Ok(x)
    ensures other != key ==> Item(Assign(v, key, x).value, other) == Item(v, other)
  {
  }
}
