/** ECMAScript values as the core sees them: tool arguments, parsed query
    parameters, Actor input documents and dataset items. A record is a map
    from key to value; a key that is absent from the map is `undefined`. */
module JsValues {

  datatype Json =
    | JNull
    | JBool(b: bool)
    | JNum(n: real)
    | JStr(s: string)
    | JArr(items: seq<Json>)
    | JObj(fields: map<string, Json>)

  /** ECMAScript ToBoolean (NaN is not representable here). */
  predicate Truthy(v: Json) {
    match v
    case JNull => false
    case JBool(b) => b
    case JNum(n) => n != 0.0
    case JStr(s) => s != ""
    case JArr(_) => true
    case JObj(_) => true
  }

  /** `record[key]` is truthy; an absent key reads as `undefined`, which is falsy. */
  predicate FieldTruthy(record: map<string, Json>, key: string) {
    key in record && Truthy(record[key])
  }

  /** `v.length === 0`: strings and arrays have a length; a plain object only
      when it has an own `length` property; numbers and booleans have none. */
  predicate LengthIsZero(v: Json) {
    match v
    case JStr(s) => |s| == 0
    case JArr(a) => |a| == 0
    case JObj(m) => "length" in m && m["length"] == JNum(0.0)
    case _ => false
  }

  /** An array of strings from a list of strings. */
  function StringArray(xs: seq<string>): (v: Json)
    ensures v.JArr? && |v.items| == |xs|
    ensures forall i :: 0 <= i < |xs| ==> v.items[i] == JStr(xs[i])
  {
    JArr(seq(|xs|, i requires 0 <= i < |xs| => JStr(xs[i])))
  }

  /** The plain value `n` as an ECMAScript number. */
  function Num(n: int): Json {
    JNum(n as real)
  }

  /** `Number.isInteger(n)`. */
  predicate IsInteger(n: real) {
    n.Floor as real == n
  }
}
