/**
 * JSON values as the host hands them to the normalizers and receives them
 * back, with JavaScript's notion of truthiness and property access.
 */
module Json {

  /** `Undefined` is what reading an absent property yields. */
  datatype Value =
    | Undefined
    | Null
    | Bool(b: bool)
    | Num(n: real)
    | Str(s: string)
    | Arr(elems: seq<Value>)
    | Obj(fields: map<string, Value>)

  /** A JSON object, such as the `json` payload of one host item. */
  type Record = map<string, Value>

  /** JavaScript truthiness: `undefined`, `null`, `false`, `0` and `""` are falsy. */
  predicate Truthy(v: Value)
  {
    match v
    case Undefined => false
    case Null => false
    case Bool(b) => b
    case Num(n) => n != 0.0
    case Str(s) => s != ""
    case Arr(_) => true
    case Obj(_) => true
  }

  /** `v.key`: the property if `v` is an object holding it, `undefined` otherwise. */
  function Field(v: Value, key: string): Value
  {
    if v.Obj? && key in v.fields then v.fields[key] else Undefined
  }

  /** `xs[i]`: the element, or `undefined` past the end. */
  function At(xs: seq<Value>, i: nat): Value
  {
    if i < |xs| then xs[i] else Undefined
  }

  /** `(v as T[]) || []`: the elements of an array, nothing for a falsy value. */
  function ListOr(v: Value): seq<Value>
  {
    if v.Arr? then v.elems else []
  }
}
