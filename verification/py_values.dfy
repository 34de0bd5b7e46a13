/**
  Python's side of the request path: the JSON-shaped values a payload can hold,
  Python truthiness, the builtin type names a payload schema may declare, and
  exceptions as an explicit outcome.
 */
module PyValues {

  datatype Option<+T> = None | Some(value: T)

  /** A decoded JSON value as Python sees it (`None`, `str`, `int`, `bool`, `list`, `dict`). */
  datatype Value =
    | Null
    | Str(s: string)
    | Int(i: int)
    | Bool(b: bool)
    | List(items: seq<Value>)
    | Dict(entries: map<string, Value>)

  /** A keyword-argument mapping: a payload dict, a parser's output, `**kwargs`. */
  type Kwargs = map<string, Value>

  /** Python's `bool(v)`: `None`, `""`, `0`, `False`, `[]` and `{}` are false. */
  predicate Truthy(v: Value)
  {
    match v
    case Null => false
    case Str(s) => s != ""
    case Int(i) => i != 0
    case Bool(b) => b
    case List(xs) => xs != []
    case Dict(m) => m != map[]
  }

  /** The test `val is None or not val`. */
  predicate IsFalsy(v: Value)
  {
    v.Null? || !Truthy(v)
  }

  /**
    The builtin classes a type name in a payload schema can resolve to.
    `NonJsonType` stands for a builtin class no decoded JSON value belongs to
    (`float` aside, which has its own tag).
   */
  datatype PyType = StrType | IntType | BoolType | FloatType | ListType | DictType | ObjectType | NonJsonType

  /** `pydoc.locate(name)` for the builtin type names; `None` for a name it cannot resolve. */
  function Locate(name: string): Option<PyType>
  {
    if name == "str" then Some(StrType)
    else if name == "int" then Some(IntType)
    else if name == "bool" then Some(BoolType)
    else if name == "float" then Some(FloatType)
    else if name == "list" then Some(ListType)
    else if name == "dict" then Some(DictType)
    else if name == "object" then Some(ObjectType)
    else if name in ["tuple", "set", "frozenset", "bytes", "bytearray", "complex", "range", "type"]
    then Some(NonJsonType)
    else None
  }

  /** `isinstance(v, t)`; `bool` is a subclass of `int`, every value is an `object`. */
  predicate IsInstance(v: Value, t: PyType)
  {
    match t
    case StrType => v.Str?
    case IntType => v.Int? || v.Bool?
    case BoolType => v.Bool?
    case FloatType => false
    case ListType => v.List?
    case DictType => v.Dict?
    case ObjectType => true
    case NonJsonType => false
  }

  /**
    The Python exceptions the request path raises or lets through.
    `ValueError` also stands for its subclasses (such as `json.JSONDecodeError`),
    which the inference view catches alike.
   */
  datatype Exc =
    | ValueError(msg: string)
    | TypeError(msg: string)
    | ImportError(msg: string)
    | OtherError(kind: string, msg: string)

  /** A Python call either returns a value or raises an exception. */
  datatype Outcome<+T> = Returned(value: T) | Raised(exc: Exc)

  /** A two-entry JSON object `{k1: v1, k2: v2}`. */
  function Pair(k1: string, v1: Value, k2: string, v2: Value): Value
  {
    Dict(map[k1 := v1, k2 := v2])
  }

  /** A one-entry JSON object `{k: v}`. */
  function Single(k: string, v: Value): Value
  {
    Dict(map[k := v])
  }
}
