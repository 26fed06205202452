/**
 * JavaScript values as the job handler sees them: whatever `response.json()`
 * parsed from the upstream body, plus `undefined` for a property that is not
 * there. The operators the handler leans on (`||`, `!= null`, `typeof`,
 * `Array.isArray`, a property read) are total functions over this type.
 */
module JsValue {
  import opened Wrappers

  datatype Value =
    | Undefined
    | Null
    | Bool(b: bool)
    | Num(n: real)
    | Str(s: string)
    | Arr(items: seq<Value>)
    | Obj(fields: map<string, Value>)

  /** `v == null`: loose equality with null holds of null and undefined only. */
  predicate IsNullish(v: Value) {
    v.Undefined? || v.Null?
  }

  /** JavaScript truthiness: false, 0, "", null and undefined are falsy; every array and object is truthy. */
  predicate Truthy(v: Value) {
    match v
    case Undefined => false
    case Null => false
    case Bool(b) => b
    case Num(n) => n != 0.0
    case Str(s) => s != ""
    case Arr(_) => true
    case Obj(_) => true
  }

  /** `a || b` */
  function Or(a: Value, b: Value): Value {
    if Truthy(a) then a else b
  }

  /** `typeof v === "object"` */
  predicate IsObjectType(v: Value) {
    v.Null? || v.Arr? || v.Obj?
  }

  /**
   * `v[key]` on a value that is not null or undefined. Only an object's own
   * members are found: none of the keys the handler reads is inherited by
   * strings, numbers, booleans, arrays or plain objects.
   */
  function Get(v: Value, key: string): Value
    requires !IsNullish(v)
  {
    if v.Obj? && key in v.fields then v.fields[key] else Undefined
  }

  /** `v[key]` on any value; None stands for the TypeError thrown on null and undefined. */
  function Read(v: Value, key: string): Option<Value> {
    if IsNullish(v) then None else Some(Get(v, key))
  }
}
