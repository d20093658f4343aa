/** JSON values as Python's `json.loads` produces them, the decoder as an
    uninterpreted partial function, and the parts of Python's object
    protocol that the backend applies to decoded values: truthiness, the
    `in` operator and the `isinstance(v, list)` test. */
module Json {
  import Text

  /** A decoded JSON value: `None`, `bool`, `int`, `float`, `str`, `list`,
      `dict`. A float is kept as the exact real it denotes (no IEEE 754
      rounding); only its type and whether it is zero are ever observed. */
  datatype Json =
    | Null
    | Bool(b: bool)
    | Number(n: int)
    | Float(f: real)
    | String(s: string)
    | Array(items: seq<Json>)
    | Object(fields: map<string, Json>)

  /** The outcome of `json.loads`: a value, or a `JSONDecodeError` carrying
      the decoder's message. */
  datatype Decoded = Parsed(value: Json) | DecodeError(msg: string)

  /** `json.loads`, left uninterpreted: every operation that decodes takes
      the decoder as a parameter. */
  type Parser = string -> Decoded

  /** The Python exceptions the modelled code can raise; `str(e)` is `msg`. */
  datatype PyError = TypeError(msg: string) | ValueError(msg: string)

  datatype Outcome<T> = Ok(value: T) | Raised(error: PyError)

  /** Python's `bool(v)`: `None`, `False`, `0`, `0.0`, `""`, `[]` and `{}` are falsy. */
  predicate Truthy(v: Json) {
    match v
    case Null => false
    case Bool(b) => b
    case Number(n) => n != 0
    case Float(f) => f != 0.0
    case String(s) => s != []
    case Array(items) => items != []
    case Object(fields) => fields != map[]
  }

  /** The name Python gives the type of a decoded value. */
  function TypeName(v: Json): string {
    match v
    case Null => "NoneType"
    case Bool(_) => "bool"
    case Number(_) => "int"
    case Float(_) => "float"
    case String(_) => "str"
    case Array(_) => "list"
    case Object(_) => "dict"
  }

  /** Python's `key in v` for a string `key`: a key test on a dict, an
      element test on a list, a substring test on a str, and a `TypeError`
      on the scalars. */
  function PyIn(key: string, v: Json): (r: Outcome<bool>)
    ensures r.Raised? <==> v.Null? || v.Bool? || v.Number? || v.Float?
    ensures v.Object? ==> r == Ok(key in v.fields)
    ensures v.Array? ==> r == Ok(String(key) in v.items)
    ensures v.String? ==> r == Ok(Text.Contains(v.s, key))
  {
    match v
    case Object(fields) => Ok(key in fields)
    case Array(items) => Ok(String(key) in items)
    case String(s) => Ok(Text.Contains(s, key))
    case _ => Raised(TypeError("argument of type '" + TypeName(v) + "' is not iterable"))
  }

  /** A Python list of strings. */
  function Strings(items: seq<string>): (r: Json)
    ensures r.Array? && |r.items| == |items|
    ensures forall i :: 0 <= i < |items| ==> r.items[i] == String(items[i])
  {
    Array(seq(|items|, i requires 0 <= i < |items| => String(items[i])))
  }
}
