/**
 * JSON values as the application sees them after `JSON.parse`, together
 * with the two JavaScript judgements the code makes about them: truthiness
 * and `typeof v === 'object'`.
 */
module Json {
  import opened Wrappers

  datatype Json =
    | JNull
    | JBool(b: bool)
    | JNum(n: real)
    | JStr(s: string)
    | JArr(items: seq<Json>)
    | JObj(fields: map<string, Json>)

  /** JavaScript truthiness: `null`, `false`, `0` and `""` are falsy. */
  predicate Truthy(v: Json) {
    match v
    case JNull => false
    case JBool(b) => b
    case JNum(n) => n != 0.0
    case JStr(s) => s != ""
    case JArr(_) => true
    case JObj(_) => true
  }

  /** `typeof v === 'object'`, which holds of `null` and of arrays too. */
  predicate IsObjectType(v: Json) {
    v.JNull? || v.JArr? || v.JObj?
  }

  /** A property read `obj[key]`: `None` is `undefined`. */
  function Lookup(m: map<string, Json>, key: string): Option<Json> {
    if key in m then Some(m[key]) else None
  }

  /** `v === undefined || v === null` */
  predicate IsNullish(v: Option<Json>) {
    v.None? || v.value.JNull?
  }

  /** Truthiness of a property read, where `undefined` is falsy. */
  predicate TruthyRead(v: Option<Json>) {
    v.Some? && Truthy(v.value)
  }

  /** The outcome of JavaScript's `Number(...)` coercion. */
  datatype JsNumber = NaN | Finite(value: real) | Infinite(negative: bool)
}
