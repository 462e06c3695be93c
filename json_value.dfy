/**
 * JSON documents as Python's json module hands them to the program, and the
 * few pieces of Python's dynamic typing the relay relies on: truthiness,
 * dict.get with a default, str() of a scalar and the texts of the
 * exceptions raised when a value has the wrong type.
 */
module JsonValue {
  import Text

  /** A parsed JSON document; numbers are integers (non-integral numbers are not modelled). */
  datatype Json =
    | Null
    | Bool(b: bool)
    | Int(i: int)
    | Str(s: string)
    | List(items: seq<Json>)
    | Dict(fields: map<string, Json>)

  /** type(v).__name__ for the Python value json.loads produces. */
  function TypeName(v: Json): string
  {
    match v
    case Null => "NoneType"
    case Bool(_) => "bool"
    case Int(_) => "int"
    case Str(_) => "str"
    case List(_) => "list"
    case Dict(_) => "dict"
  }

  /** bool(v) in Python. */
  predicate Truthy(v: Json)
  {
    match v
    case Null => false
    case Bool(b) => b
    case Int(i) => i != 0
    case Str(s) => s != ""
    case List(items) => items != []
    case Dict(fields) => fields != map[]
  }

  /** d.get(key, default). */
  function Get(fields: map<string, Json>, key: string, default: Json): Json
  {
    if key in fields then fields[key] else default
  }

  predicate IsScalar(v: Json) { !v.List? && !v.Dict? }

  /** str(v) for a scalar, as an f-string renders it. */
  function Render(v: Json): string
    requires IsScalar(v)
  {
    match v
    case Null => "None"
    case Bool(b) => if b then "True" else "False"
    case Int(i) => Text.IntToDecimal(i)
    case Str(s) => s
  }

  /** The message of the AttributeError raised by v.get(...) when v is not a dict. */
  function NoGetMessage(v: Json): string
  {
    "'" + TypeName(v) + "' object has no attribute 'get'"
  }

  /** The message of the TypeError raised by v[:n] when v cannot be sliced. */
  function NotSubscriptableMessage(v: Json): string
  {
    "'" + TypeName(v) + "' object is not subscriptable"
  }

  /** The message of the TypeError raised by `for p in v` when v cannot be iterated. */
  function NotIterableMessage(v: Json): string
  {
    "'" + TypeName(v) + "' object is not iterable"
  }

  /** The message of the TypeError raised by v + "\n" when v is not a str. */
  function ConcatMessage(v: Json): string
  {
    if v.List? then "can only concatenate list (not \"str\") to list"
    else "unsupported operand type(s) for +: '" + TypeName(v) + "' and 'str'"
  }
}
