/** The JavaScript values that request bodies are made of, with the two JavaScript
    notions the pipes and validators test: truthiness and `typeof v === 'object'`. */
module JsValue {
  import opened Common

  /** Numbers are modelled as integers, plus the NaN a failed conversion yields. */
  datatype Value =
    | Undefined
    | Null
    | Bool(b: bool)
    | Num(n: int)
    | NaN
    | Str(s: string)
    | Arr(items: seq<Value>)
    | Obj(fields: map<string, Value>)

  /** JavaScript truthiness: undefined, null, false, 0, NaN and "" are falsy. */
  predicate Truthy(v: Value) {
    match v
    case Undefined => false
    case Null => false
    case Bool(b) => b
    case Num(n) => n != 0
    case NaN => false
    case Str(s) => s != ""
    case Arr(_) => true
    case Obj(_) => true
  }

  /** `typeof v === 'object'`: true of null, arrays and plain objects. */
  predicate IsObjectType(v: Value) {
    v.Null? || v.Arr? || v.Obj?
  }

  /** Property access `obj[key]`: a missing key reads as undefined. */
  function Get(m: map<string, Value>, key: string): Value {
    if key in m then m[key] else Undefined
  }

  /** `v === undefined || v === null || v === ''`, the "not supplied" test of the pipe. */
  predicate Unsupplied(v: Value) {
    v == Undefined || v == Null || v == Str("")
  }

  /** `JSON.parse`, an oracle: the parsed value, or None where it throws. */
  type JsonParse = string -> Option<Value>

  /** `Number(v)`, an oracle: the number, or None where the result is NaN. */
  type ToNumber = Value -> Option<int>
}
