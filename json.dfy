/** JSON values as the route handlers and the lighting editor receive them. */
module Json {
  import opened Wrappers

  /** A JSON number is kept as a `real`, so that integrality (zod's `.int()`)
      can be stated; NaN and the infinities cannot occur in JSON text. */
  datatype Json =
    | JNull
    | JBool(b: bool)
    | JNum(n: real)
    | JStr(s: string)
    | JArr(items: seq<Json>)
    | JObj(fields: map<string, Json>)

  /** Property access `obj[key]`: `None` stands for `undefined`. */
  function Get(fields: map<string, Json>, key: string): Option<Json> {
    if key in fields then Some(fields[key]) else None
  }

  /** JavaScript's `typeof` on a parsed JSON value (`None` is `undefined`):
      `null` and arrays are both "object". */
  function TypeOf(v: Option<Json>): string {
    match v
    case None => "undefined"
    case Some(JNull) => "object"
    case Some(JBool(_)) => "boolean"
    case Some(JNum(_)) => "number"
    case Some(JStr(_)) => "string"
    case Some(JArr(_)) => "object"
    case Some(JObj(_)) => "object"
  }

  /** The property as a string, when `typeof` says "string". */
  function GetString(fields: map<string, Json>, key: string): Option<string> {
    match Get(fields, key)
    case Some(JStr(s)) => Some(s)
    case _ => None
  }

  /** The property as a number, when `typeof` says "number". */
  function GetNumber(fields: map<string, Json>, key: string): Option<real> {
    match Get(fields, key)
    case Some(JNum(n)) => Some(n)
    case _ => None
  }

  lemma TypeOfStringIsGetString(fields: map<string, Json>, key: string)
    ensures TypeOf(Get(fields, key)) == "string" <==> GetString(fields, key).Some?
    ensures TypeOf(Get(fields, key)) == "number" <==> GetNumber(fields, key).Some?
  {
  }
}
