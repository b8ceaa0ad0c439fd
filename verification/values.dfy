/** Python dictionaries with string keys, as the ingestion side passes them around. */
module Values {

  /** A dictionary value; `VOther` is any other object, carrying what `str()` makes of it. */
  datatype Value =
    | VNone
    | VStr(s: string)
    | VInt(i: int)
    | VBool(b: bool)
    | VFloat(f: real)
    | VOther(repr: string)

  type Dict = map<string, Value>

  /** `d.get(key, default)`. */
  function Get(d: Dict, key: string, default: Value): Value {
    if key in d then d[key] else default
  }
}
