/**
 * JavaScript values as the portal receives them in response bodies, JWT
 * claims and request payloads, with the three operations the source applies
 * to them: truthiness (`if (x)`, `x || y`), property access (`x.k`, `x?.k`)
 * and string conversion (`String(x)`, template literals, `localStorage.setItem`).
 */
module JsValue {
  import opened Strings

  /** Numbers are whole numbers here; fractional values are not modelled. */
  datatype Value =
    | Undefined
    | Null
    | Bool(b: bool)
    | Num(n: int)
    | Str(s: string)
    | Arr(elems: seq<Value>)
    | Obj(fields: map<string, Value>)

  /** JavaScript truthiness: `undefined`, `null`, `false`, `0` and `""` are falsy. */
  predicate Truthy(v: Value) {
    match v
    case Undefined => false
    case Null => false
    case Bool(b) => b
    case Num(n) => n != 0
    case Str(s) => s != ""
    case Arr(_) => true
    case Obj(_) => true
  }

  /** Values on which `v.k` throws a TypeError and `v?.k` yields `undefined`. */
  predicate Nullish(v: Value) {
    v.Undefined? || v.Null?
  }

  /**
   * `v?.k` for a data property `k`: the field of an object, `undefined` for
   * anything else (built-in properties such as `length` are not modelled).
   */
  function Prop(v: Value, k: string): Value {
    if v.Obj? && k in v.fields then v.fields[k] else Undefined
  }

  /** `Array.prototype.join(sep)` over already printed elements. */
  function Join(parts: seq<string>, sep: string): string {
    if |parts| == 0 then ""
    else if |parts| == 1 then parts[0]
    else parts[0] + sep + Join(parts[1..], sep)
  }

  /** `String(v)`; inside an array, `null` and `undefined` elements print as empty. */
  function ToJsString(v: Value): string {
    match v
    case Undefined => "undefined"
    case Null => "null"
    case Bool(b) => if b then "true" else "false"
    case Num(n) => IntToString(n)
    case Str(s) => s
    case Arr(elems) =>
      Join(seq(|elems|, i requires 0 <= i < |elems| =>
                 if Nullish(elems[i]) then "" else ToJsString(elems[i])), ",")
    case Obj(_) => "[object Object]"
  }
}
