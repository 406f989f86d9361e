/**
 * Decoded JSON values as `json.loads` produces them, Python's truthiness and
 * `str()` on them, and the library calls the bot makes that the model does
 * not re-implement (JSON decoding, float parsing and printing, ISO 8601
 * parsing), bundled as a record of functions.
 */
module Json {
  import opened Wrappers
  import opened Text

  datatype Json =
    | JNull
    | JBool(b: bool)
    | JInt(i: int)
    | JFloat(f: real)
    | JStr(s: string)
    | JArr(items: seq<Json>)
    | JObj(fields: map<string, Json>)

  /** Python's `bool(v)`. */
  predicate Truthy(v: Json) {
    match v
    case JNull => false
    case JBool(b) => b
    case JInt(i) => i != 0
    case JFloat(f) => f != 0.0
    case JStr(s) => s != []
    case JArr(items) => items != []
    case JObj(fields) => fields != map[]
  }

  /**
   * Library behaviour outside the model.
   * `decode` is `json.loads` (None where it raises JSONDecodeError);
   * `parseFloat` is `float(s)` on a string (None where it raises ValueError);
   * `floatStr` is `str(x)` on a float; `containerStr` is `str(v)` on a list or dict;
   * `parseIso` is `datetime.fromisoformat(s)` as seconds since the epoch
   * (None where it raises ValueError).
   */
  datatype Foreign = Foreign(
    decode: string -> Option<Json>,
    parseFloat: string -> Option<real>,
    floatStr: real -> string,
    containerStr: Json -> string,
    parseIso: string -> Option<int>)

  /** Python's `str(v)` on a decoded JSON value. */
  function PyStr(v: Json, lib: Foreign): (r: string)
    ensures v.JStr? ==> r == v.s
    ensures v.JNull? ==> r == "None"
    ensures v.JInt? ==> r == IntToString(v.i)
  {
    match v
    case JNull => "None"
    case JBool(b) => if b then "True" else "False"
    case JInt(i) => IntToString(i)
    case JFloat(f) => lib.floatStr(f)
    case JStr(s) => s
    case _ => lib.containerStr(v)
  }

  /**
   * Python's `key in v` for a string key: a key of a dict, a substring of a
   * string, an element of a list; Err for the values on which `in` raises
   * TypeError (numbers, booleans, None).
   */
  function PyIn(key: string, v: Json): (r: Result<bool, ()>)
    ensures v.JObj? ==> r == Ok(key in v.fields)
    ensures (v.JNull? || v.JBool? || v.JInt? || v.JFloat?) ==> r.Err?
  {
    match v
    case JObj(fields) => Ok(key in fields)
    case JStr(s) => Ok(IsSubstring(key, s))
    case JArr(items) => Ok(JStr(key) in items)
    case _ => Err(())
  }

  /** `d.get(key, default)` on a dict. */
  function Get(fields: map<string, Json>, key: string, default: Json): (r: Json)
    ensures key in fields ==> r == fields[key]
    ensures key !in fields ==> r == default
  {
    if key in fields then fields[key] else default
  }
}
