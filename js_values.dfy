/** JavaScript values as the modelled code sees them, and the few JavaScript
    operators on them that the code relies on. */
module Json {

  /** A property read from a JSON body, a query string or a React prop:
      missing (`undefined`), `null`, or a string. */
  datatype Value = Undefined | Null | Str(s: string)

  /** JavaScript truthiness on these values: only a non-empty string is truthy. */
  predicate Truthy(v: Value) {
    v.Str? && v.s != ""
  }

  /** `v || fallback`, the defaulting idiom of the code. */
  function Or(v: Value, fallback: Value): (r: Value)
    ensures Truthy(v) ==> r == v
    ensures !Truthy(v) ==> r == fallback
  {
    if Truthy(v) then v else fallback
  }

  /** `v || fallback` where the result is known to be a string. */
  function OrString(v: Value, fallback: string): (r: string)
    ensures Truthy(v) ==> r == v.s
    ensures !Truthy(v) ==> r == fallback
  {
    if Truthy(v) then v.s else fallback
  }

  /** `${v}` inside a template literal. */
  function Interpolate(v: Value): string {
    match v
    case Undefined => "undefined"
    case Null => "null"
    case Str(s) => s
  }

  /** A plain JavaScript object with string-valued properties. */
  type JsObject = map<string, Value>

  /** `o[key]`: a missing property reads as `undefined`. */
  function Prop(o: JsObject, key: string): Value {
    if key in o then o[key] else Undefined
  }
}
