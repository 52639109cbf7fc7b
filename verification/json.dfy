/** JSON values as the application's `Json` union declares them, together with
    the two pieces of JavaScript semantics the core leans on: truthiness and
    reading a property off a value. */
module Json {
  import opened Wrappers
  import Decimal

  /** A JSON value. Numbers are exact rationals; object keys are unordered and
      unique (an absent key is the union's `undefined` member). */
  datatype Json =
    | JNull
    | JBool(b: bool)
    | JNum(n: real)
    | JStr(s: string)
    | JArr(items: seq<Json>)
    | JObj(fields: map<string, Json>)

  /** Outcome of a JavaScript step that may throw: the thrown error's message,
      or the value produced. */
  datatype Thrown<+T> = Threw(message: string) | Returned(value: T)

  /** JavaScript truthiness of a value; `None` is `undefined`. */
  predicate Truthy(v: Option<Json>) {
    match v
    case None => false
    case Some(JNull) => false
    case Some(JBool(b)) => b
    case Some(JNum(n)) => n != 0.0
    case Some(JStr(s)) => s != ""
    case Some(JArr(_)) => true
    case Some(JObj(_)) => true
  }

  /** Outcome of reading a property: a TypeError, raised by reading from `null`
      (`ofNull`) or from `undefined`, or the value found (`None` for undefined). */
  datatype Lookup = ReadFails(ofNull: bool) | Found(value: Option<Json>)

  /** `v[key]` / `v.key` on a JSON value. Reading from `undefined` or `null`
      fails; arrays and strings answer canonical indices and `length`; other
      primitives have none of the own properties read here. */
  function Get(v: Option<Json>, key: string): (r: Lookup)
    ensures r.ReadFails? <==> v == None || v == Some(JNull)
    ensures r.ReadFails? ==> (r.ofNull <==> v == Some(JNull))
    ensures v.Some? && v.value.JObj? ==> r == Found(if key in v.value.fields then Some(v.value.fields[key]) else None)
  {
    match v
    case None => ReadFails(false)
    case Some(JNull) => ReadFails(true)
    case Some(JObj(fields)) => Found(if key in fields then Some(fields[key]) else None)
    case Some(JArr(items)) =>
      if key == "length" then Found(Some(JNum(|items| as real)))
      else (match Decimal.ParseNat(key)
        case Some(i) => Found(if i < |items| then Some(items[i]) else None)
        case None => Found(None))
    case Some(JStr(s)) =>
      if key == "length" then Found(Some(JNum(|s| as real)))
      else (match Decimal.ParseNat(key)
        case Some(i) => Found(if i < |s| then Some(JStr([s[i]])) else None)
        case None => Found(None))
    case Some(_) => Found(None)
  }

  /** Array element `i` is reached by its decimal index. */
  lemma GetArrayIndex(items: seq<Json>, i: nat)
    requires i < |items|
    ensures Get(Some(JArr(items)), Decimal.ShowNat(i)) == Found(Some(items[i]))
  {
    Decimal.ParseShowNat(i);
    assert Decimal.ShowNat(i) != "length";
  }
}
