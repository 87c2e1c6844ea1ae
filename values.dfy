/** Values as the YAML loader hands them to the tool: scalars, and mappings
    from string keys to scalars (Python dicts), with Python's truthiness and
    the two forms of `dict.get`. */
module Values {

  datatype Option<+T> = None | Some(value: T)

  datatype Result<+T, +E> = Ok(value: T) | Err(error: E)

  /** A YAML scalar: a string, an integer, a boolean or null. */
  datatype Scalar = Text(s: string) | Number(n: int) | Flag(b: bool) | Null

  /** A YAML mapping with string keys, as a Python dict. */
  type Record = map<string, Scalar>

  /** Python truthiness: empty strings, zero, false and None are false. */
  predicate Truthy(v: Scalar)
  {
    match v
    case Text(s) => s != ""
    case Number(n) => n != 0
    case Flag(b) => b
    case Null => false
  }

  /** `d.get(key)`: None when the key is absent. */
  function Get(d: Record, key: string): Scalar
  {
    if key in d then d[key] else Null
  }

  /** `d.get(key, default)`: the default only when the key is absent; a key
      present with a null value yields null. */
  function GetOr(d: Record, key: string, default: Scalar): Scalar
  {
    if key in d then d[key] else default
  }
}
