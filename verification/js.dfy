/** The JavaScript values the bot reads from parsed JSON, and the language's truthiness. */
module Js {

  /** A parsed JSON value, as JavaScript sees it. Numbers are integers here. */
  datatype JsValue =
    | Undefined
    | Null
    | Bool(boolValue: bool)
    | Num(numValue: int)
    | Str(strValue: string)
    | Arr(items: seq<JsValue>)
    | Obj(fields: map<string, JsValue>)

  /** JavaScript truthiness: `false`, `0`, `""`, `null` and `undefined` are falsy. */
  predicate Truthy(v: JsValue) {
    match v
    case Undefined => false
    case Null => false
    case Bool(b) => b
    case Num(n) => n != 0
    case Str(s) => s != ""
    case Arr(_) => true
    case Obj(_) => true
  }

  /**
   * `v[key]` for the keys read here (`token`, `ai_id`): an object's own field, and
   * `undefined` for a missing field or for any value that is not an object.
   */
  function Field(v: JsValue, key: string): JsValue {
    if v.Obj? && key in v.fields then v.fields[key] else Undefined
  }
}
