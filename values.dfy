/** Python values as the enrichment code sees them: what json.loads returns,
    the exceptions the code can raise, and the few built-in operations it
    applies to decoded values (truthiness, dict.get, len, subscript 0). */
module PyValues {

  datatype Option<+T> = None | Some(value: T)

  /** A value returned by json.loads. Python's None and JSON null are the same
      value, JNull. A number is kept as the decimal mantissa * 10^exponent it was
      written as; the model never computes with it and only asks whether it is
      zero (its truthiness). */
  datatype Json =
    | JNull
    | JBool(b: bool)
    | JNum(mantissa: int, exponent: int)
    | JStr(s: string)
    | JArr(items: seq<Json>)
    | JObj(fields: map<string, Json>)

  /** The exceptions the modelled code can raise: the first four come from
      Python built-ins, the last two from the HTTP call and the JSON decoder. */
  datatype PyError =
    | TypeError
    | AttributeError
    | KeyError
    | IndexError
    | RequestError
    | DecodeError

  /** The result of a Python call that may raise. */
  datatype Outcome<+T> = Returned(value: T) | Raised(error: PyError)

  /** Python's bool(v) for a decoded JSON value: None, false, zero, "", []
      and {} are falsy, everything else is truthy. */
  predicate Truthy(v: Json): (b: bool)
    ensures !b <==>
      || v == JNull || v == JBool(false) || (v.JNum? && v.mantissa == 0)
      || v == JStr("") || v == JArr([]) || v == JObj(map[])
  {
    match v
    case JNull => false
    case JBool(value) => value
    case JNum(m, _) => m != 0
    case JStr(s) => s != ""
    case JArr(items) => items != []
    case JObj(fields) => fields != map[]
  }

  /** d.get(key) on a dict: the value at key, or None when key is absent. */
  function Get(fields: map<string, Json>, key: string): Json {
    if key in fields then fields[key] else JNull
  }

  /** v.get(key): only a dict has a get method; anything else raises
      AttributeError. */
  function CallGet(v: Json, key: string): (r: Outcome<Json>)
    ensures r.Raised? <==> !v.JObj?
    ensures r.Raised? ==> r.error == AttributeError
    ensures v.JObj? && key !in v.fields ==> r == Returned(JNull)
    ensures v.JObj? && key in v.fields ==> r == Returned(v.fields[key])
  {
    match v
    case JObj(fields) => Returned(Get(fields, key))
    case _ => Raised(AttributeError)
  }

  /** len(v): defined for strings, lists and dicts, TypeError otherwise
      (in particular for None). */
  function Len(v: Json): (r: Outcome<nat>)
    ensures r.Raised? <==> !(v.JStr? || v.JArr? || v.JObj?)
    ensures r.Raised? ==> r.error == TypeError
    ensures r.Returned? ==> (r.value == 0 <==> !Truthy(v))
  {
    match v
    case JStr(s) => Returned(|s|)
    case JArr(items) => Returned(|items|)
    case JObj(fields) => Returned(|fields|)
    case _ => Raised(TypeError)
  }

  /** v[0] on a value whose len() is positive: the first character of a
      string, the first element of a list, and KeyError for a dict (JSON
      object keys are strings, never the integer 0). */
  function Subscript0(v: Json): (r: Outcome<Json>)
    requires Len(v).Returned? && Len(v).value > 0
    ensures r.Raised? <==> v.JObj?
    ensures v.JArr? ==> r == Returned(v.items[0])
    ensures v.JStr? ==> r == Returned(JStr([v.s[0]]))
  {
    match v
    case JStr(s) => Returned(JStr([s[0]]))
    case JArr(items) => Returned(items[0])
    case JObj(_) => Raised(KeyError)
  }

  /** row[index] on a list of strings, with Python's reading of a negative
      index as counting from the end. */
  function PyIndex(row: seq<string>, index: int): (r: Outcome<string>)
    ensures r.Returned? <==> -|row| <= index < |row|
    ensures r.Raised? ==> r.error == IndexError
    ensures r.Returned? ==> |row| > 0 && r.value in row
    ensures 0 <= index < |row| ==> r == Returned(row[index])
    ensures -|row| <= index < 0 ==> r == Returned(row[|row| + index])
  {
    if 0 <= index < |row| then Returned(row[index])
    else if -|row| <= index < 0 then Returned(row[|row| + index])
    else Raised(IndexError)
  }
}
