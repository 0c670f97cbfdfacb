/**
 * The Python values the tracker handles after `json.loads`, and the three
 * operations it applies to them: subscripting, slicing and `str()`.
 */
module JsonValues {
  import opened Wrappers
  import opened Decimal

  /** A decoded JSON document: None, bool, int, str, list or dict. */
  datatype Json =
    | Null
    | Bool(b: bool)
    | Num(n: int)
    | Str(s: string)
    | Arr(items: seq<Json>)
    | Obj(fields: map<string, Json>)

  /** The exceptions the modelled code can raise. */
  datatype PyError =
    | KeyError(key: string)   // a dict without the key
    | TypeError               // subscripting, slicing or iterating a value that does not support it
    | Unrendered              // str() of a list or dict, whose repr is not modelled

  /** `v[key]` with a string key: only a dict that holds the key answers. */
  function Subscript(v: Json, key: string): Result<Json, PyError>
  {
    match v
    case Obj(fields) => if key in fields then Ok(fields[key]) else Err(KeyError(key))
    case _ => Err(TypeError)
  }

  /** `v[:n]`: strings and lists are cut to at most `n` elements; nothing else is sliceable. */
  function SliceTo(v: Json, n: nat): Result<Json, PyError>
  {
    match v
    case Str(s) => Ok(Str(if |s| <= n then s else s[..n]))
    case Arr(items) => Ok(Arr(if |items| <= n then items else items[..n]))
    case _ => Err(TypeError)
  }

  /** `"{}".format(v)`, which is `str(v)`, for the scalar values JSON decodes to. */
  function Format(v: Json): Result<string, PyError>
  {
    match v
    case Null => Ok("None")
    case Bool(b) => Ok(if b then "True" else "False")
    case Num(n) => Ok(DecimalString(n))
    case Str(s) => Ok(s)
    case _ => Err(Unrendered)
  }
}
