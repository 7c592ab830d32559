/** The dynamically typed Python values that flow through the agent framework:
    tool arguments and results, memory entries, decoded JSON and the property bag.
    Objects (a Memory, an AgentRegistry, the model function) travel as `VObject`. */
module Values {
  import Text

  datatype Option<+T> = None | Some(value: T)

  /** The exception classes whose identity the framework's `except` clauses depend on. */
  datatype ExcKind =
    | ValueError
    | JSONDecodeError  // a subclass of ValueError
    | TypeError
    | KeyError
    | AttributeError
    | UnboundLocalError
    | OtherError

  datatype Exc = Exc(kind: ExcKind, msg: string)

  /** `except ValueError` also catches `json.JSONDecodeError`. */
  predicate IsValueError(e: Exc) {
    e.kind == ValueError || e.kind == JSONDecodeError
  }

  // The texts of the runtime's own exceptions.
  const NotIterable: string := "argument is not iterable"
  const NotSubscriptable: string := "indices must be integers or the value is not subscriptable"
  const NotSerializable: string := "Object is not JSON serializable"
  const NotJson: string := "Expecting value"

  /** A Python call that returns a value or raises. */
  datatype Outcome<+T> = Ok(value: T) | Raised(exc: Exc)

  datatype Value =
    | VNone
    | VBool(b: bool)
    | VInt(i: int)
    | VStr(s: string)
    | VList(elems: seq<Value>)
    | VDict(fields: map<string, Value>)
    | VObject(obj: object)

  /** A dictionary with string keys, such as a memory entry or an argument dict. */
  type Entry = map<string, Value>

  /** Python truthiness. None of the framework's classes defines `__bool__` or
      `__len__`, so every object is true. */
  predicate Truthy(v: Value) {
    match v
    case VNone => false
    case VBool(b) => b
    case VInt(i) => i != 0
    case VStr(s) => s != []
    case VList(es) => es != []
    case VDict(m) => m != map[]
    case VObject(_) => true
  }

  /** `d.get(k, default)`. */
  function Get(d: Entry, k: string, default: Value): (r: Value)
    ensures k in d ==> r == d[k]
    ensures k !in d ==> r == default
  {
    if k in d then d[k] else default
  }

  /** `key in container` for a string `key`: a key test on a dict, an element test on
      a list, a substring test on a string; any other operand raises `TypeError`. */
  function In(key: string, container: Value): (r: Outcome<bool>)
    ensures container.VDict? ==> r == Ok(key in container.fields)
    ensures container.VList? ==> r == Ok(VStr(key) in container.elems)
    ensures container.VStr? ==> r == Ok(Text.Contains(container.s, key))
    ensures r.Raised? <==> !(container.VDict? || container.VList? || container.VStr?)
  {
    match container
    case VDict(m) => Ok(key in m)
    case VList(es) => Ok(VStr(key) in es)
    case VStr(s) => Ok(Text.Contains(s, key))
    case _ => Raised(Exc(TypeError, NotIterable))
  }

  /** The `KeyError` of a missing `key`; its `str()` is the key in quotes. */
  function MissingKey(key: string): Exc {
    Exc(KeyError, "'" + key + "'")
  }

  /** `container[key]` for a string `key`: only a dict holding `key` yields a value. */
  function GetItem(container: Value, key: string): (r: Outcome<Value>)
    ensures r.Ok? <==> container.VDict? && key in container.fields
    ensures r.Ok? ==> r.value == container.fields[key]
    ensures container.VDict? && key !in container.fields ==> r == Raised(MissingKey(key))
  {
    match container
    case VDict(m) => if key in m then Ok(m[key]) else Raised(MissingKey(key))
    case _ => Raised(Exc(TypeError, NotSubscriptable))
  }

  /** What `json.dumps` accepts: everything but objects. */
  predicate Serializable(v: Value) {
    match v
    case VObject(_) => false
    case VList(es) => forall i :: 0 <= i < |es| ==> Serializable(es[i])
    case VDict(m) => forall k :: k in m ==> Serializable(m[k])
    case _ => true
  }

  /** The services of the Python runtime that the model does not compute: the JSON
      text codec, `str()` of a non-string value, the clocks, the traceback text and
      the class names of objects. */
  datatype Runtime = Runtime(
    loads: string -> Option<Value>,  // json.loads; None is a JSONDecodeError
    dumps: Value -> string,          // json.dumps of a serializable value
    dumpsIndented: Value -> string,  // json.dumps(..., indent=2) of a serializable value
    show: Value -> string,           // str() of a non-string value
    clock: Value,                    // time.time()
    localTime: string,               // time.strftime(...)
    traceback: string,               // traceback.format_exc()
    identity: object -> int,         // id()
    className: object -> string      // type(o).__name__ of an object
  )

  /** `type(v).__name__`, as Python's error messages show it. */
  function TypeName(rt: Runtime, v: Value): string {
    match v
    case VNone => "NoneType"
    case VBool(_) => "bool"
    case VInt(_) => "int"
    case VStr(_) => "str"
    case VList(_) => "list"
    case VDict(_) => "dict"
    case VObject(o) => rt.className(o)
  }

  /** The `AttributeError` text for `v.attribute` when `v` lacks it. */
  function NoAttribute(rt: Runtime, v: Value, attribute: string): string {
    "'" + TypeName(rt, v) + "' object has no attribute '" + attribute + "'"
  }

  /** `json.dumps(v)`: raises `TypeError` on a value holding an object. */
  function Dumps(rt: Runtime, v: Value): (r: Outcome<string>)
    ensures r.Ok? <==> Serializable(v)
    ensures r.Raised? ==> r.exc.kind == TypeError
  {
    if Serializable(v) then Ok(rt.dumps(v)) else Raised(Exc(TypeError, NotSerializable))
  }

  /** `json.dumps(v, indent=2)`. */
  function DumpsIndented(rt: Runtime, v: Value): (r: Outcome<string>)
    ensures r.Ok? <==> Serializable(v)
    ensures r.Raised? ==> r.exc.kind == TypeError
  {
    if Serializable(v) then Ok(rt.dumpsIndented(v)) else Raised(Exc(TypeError, NotSerializable))
  }

  /** `json.loads(text)`. */
  function Loads(rt: Runtime, text: string): (r: Outcome<Value>)
    ensures r.Raised? ==> r.exc.kind == JSONDecodeError
  {
    match rt.loads(text)
    case Some(v) => Ok(v)
    case None => Raised(Exc(JSONDecodeError, NotJson))
  }

  /** `str(v)`, as an f-string renders `v`. */
  function Str(rt: Runtime, v: Value): (r: string)
    ensures v.VStr? ==> r == v.s
  {
    if v.VStr? then v.s else rt.show(v)
  }
}
