/** Untyped values as the configuration reader hands them over (a parsed YAML
    or JSON document), and the JavaScript notions the resolution cascade
    applies to them: truthiness and member access. */
module Json {
  import opened Wrappers

  /** A parsed document value. An absent value (`undefined`) is not a
      constructor: it is `None` wherever a value may be missing. Objects are
      maps because a parsed document never holds two members of one name. */
  datatype JsValue =
    | JNull
    | JBool(b: bool)
    | JNumber(n: real)
    | JString(s: string)
    | JArray(items: seq<JsValue>)
    | JObject(fields: map<string, JsValue>)

  /** JavaScript truthiness: `null`, `false`, `0` and the empty string are
      falsy; every array and every object, even an empty one, is truthy. */
  predicate Truthy(v: JsValue) {
    match v
    case JNull => false
    case JBool(b) => b
    case JNumber(n) => n != 0.0
    case JString(s) => s != ""
    case JArray(_) => true
    case JObject(_) => true
  }

  /** The falsy values are exactly `null`, `false`, `0` and `""`. */
  lemma FalsyValues(v: JsValue)
    ensures !Truthy(v) <==> v in {JNull, JBool(false), JNumber(0.0), JString("")}
  {
  }

  /** Truthiness of a value that may be `undefined` (which is falsy). */
  predicate IsTruthy(v: Option<JsValue>) {
    v.Some? && Truthy(v.value)
  }

  /** Truthiness of a string-typed field that may be missing. */
  predicate StringTruthy(s: Option<string>) {
    s.Some? && Truthy(JString(s.value))
  }

  /** `v.key` for a key that no built-in prototype defines: an object yields
      its own member, every other value yields `undefined`. */
  function Member(v: JsValue, key: string): Option<JsValue> {
    match v
    case JObject(fields) => if key in fields then Some(fields[key]) else None
    case _ => None
  }
}
