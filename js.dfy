/**
 * The JavaScript values that reach the telemetry core, and the engine's conversions
 * between them. What depends on the engine (parsing a numeric string, printing a
 * number, parsing a date, `toFixed`) is a field of `Host`: the model never fixes
 * those functions, so every property proved holds for every choice of them.
 */
module JsValues {
  import opened Wrappers

  /** A JavaScript number: a finite value (both zeros are `Finite(0.0)`), NaN or an infinity. */
  datatype JsNumber = Finite(value: real) | NaN | Infinity(negative: bool)

  /** A primitive value as produced by `JSON.parse` or read from a missing property. */
  datatype JsValue =
    | JNull
    | JUndefined
    | JBool(b: bool)
    | JStr(s: string)
    | JNum(n: JsNumber)

  /** The result of `JSON.parse` on a transport message. A top-level value that is not an
      object (a number, a string) has no properties: it is an object with an empty map. */
  datatype Decoded =
    | Malformed                                  // JSON.parse threw
    | JsonNull                                   // the text `null`: reading a property throws
    | JsonObject(props: map<string, JsValue>)

  /** The engine-dependent conversions. */
  datatype Host = Host(
    parseNumeric: string -> JsNumber,     // Number(s) for a non-empty string s
    numberText: JsNumber -> string,       // String(n)
    timeValue: JsValue -> Option<int>,    // new Date(v).getTime() / Date.parse; None for NaN
    toFixed: (JsNumber, nat) -> string)   // n.toFixed(d)

  /** `Number(v)`. */
  function NumberOf(v: JsValue, host: Host): JsNumber
  {
    match v
    case JNull => Finite(0.0)
    case JUndefined => NaN
    case JBool(b) => Finite(if b then 1.0 else 0.0)
    case JStr(s) => if s == "" then Finite(0.0) else host.parseNumeric(s)
    case JNum(n) => n
  }

  /** JavaScript truthiness: `!!v`. */
  predicate Truthy(v: JsValue)
  {
    match v
    case JNull => false
    case JUndefined => false
    case JBool(b) => b
    case JStr(s) => s != ""
    case JNum(n) => n != NaN && n != Finite(0.0)
  }

  /** `v === null || v === undefined`, the test behind `??`. */
  predicate IsNullish(v: JsValue)
  {
    v.JNull? || v.JUndefined?
  }

  /** `String(v)`. */
  function ToText(v: JsValue, host: Host): string
  {
    match v
    case JNull => "null"
    case JUndefined => "undefined"
    case JBool(b) => if b then "true" else "false"
    case JStr(s) => s
    case JNum(n) => host.numberText(n)
  }

  /** `obj[key]`: a missing property reads as `undefined`. */
  function Prop(props: map<string, JsValue>, key: string): JsValue
  {
    if key in props then props[key] else JUndefined
  }

  /** `|x|` on reals (`Math.abs`). */
  function Abs(x: real): real
  {
    if x < 0.0 then -x else x
  }
}
