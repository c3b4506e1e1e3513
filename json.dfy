/** The parsed JSON value that both the price catalogue and the sales record
    arrive as, and the field checks the indexer and the accumulator apply to
    it. */
module Json {

  /** One parsed JSON value. Integers and floating-point numbers stay
      distinct, as they do after Python's json parser; floats are modelled as
      exact reals. An object is a map from key to value. */
  datatype Json =
    | JNull
    | JBool(b: bool)
    | JInt(i: int)
    | JFloat(f: real)
    | JStr(s: string)
    | JArr(items: seq<Json>)
    | JObj(fields: map<string, Json>)

  datatype Option<T> = None | Some(value: T)

  /** dict.get(key): the value under key, or None when the key is missing. */
  function Get(fields: map<string, Json>, key: string): (r: Option<Json>)
    ensures r.Some? <==> key in fields
    ensures r.Some? ==> r.value == fields[key]
  {
    if key in fields then Some(fields[key]) else None
  }

  /** isinstance(v, str) on the result of a dict.get. */
  predicate IsText(v: Option<Json>)
    ensures IsText(v) <==> exists s :: v == Some(JStr(s))
  {
    v.Some? && v.value.JStr?
  }

  /** isinstance(v, (int, float)) on the result of a dict.get. Python's bool
      is a subclass of int, so true and false pass this check too. */
  predicate IsNumber(v: Option<Json>)
    ensures IsNumber(v) <==> v.Some? && !(v.value.JNull? || v.value.JStr? || v.value.JArr? || v.value.JObj?)
  {
    v.Some? && (v.value.JInt? || v.value.JFloat? || v.value.JBool?)
  }

  /** float(v) for a value that passed IsNumber: True is 1.0, False is 0.0. */
  function ToReal(v: Json): (r: real)
    requires v.JInt? || v.JFloat? || v.JBool?
    ensures v.JInt? ==> r == v.i as real
    ensures v.JFloat? ==> r == v.f
    ensures v.JBool? ==> (r == 1.0 <==> v.b) && (r == 1.0 || r == 0.0)
  {
    match v
    case JInt(i) => i as real
    case JFloat(f) => f
    case JBool(b) => if b then 1.0 else 0.0
  }
}
