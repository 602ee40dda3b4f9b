/** The JavaScript values that the request builders receive and return: plain
    objects whose properties may be missing, strings, booleans and numbers. */
module JsValue {
  import opened Common

  datatype Value =
    | Undefined
    | Null
    | Bool(b: bool)
    | Num(n: int)
    | Str(s: string)
    | Obj(fields: map<string, Value>)

  /** JavaScript truthiness (`NaN` and `-0` are not modelled). */
  predicate Truthy(v: Value) {
    match v
    case Undefined => false
    case Null => false
    case Bool(b) => b
    case Num(n) => n != 0
    case Str(s) => s != ""
    case Obj(_) => true
  }

  /** Property read `v.key`; a missing property, or a property of a non-object, reads as undefined. */
  function Get(v: Value, key: string): (r: Value)
    ensures v.Obj? && key in v.fields ==> r == v.fields[key]
    ensures !(v.Obj? && key in v.fields) ==> r == Undefined
  {
    if v.Obj? && key in v.fields then v.fields[key] else Undefined
  }

  /** The rest object of `const {key, ...rest} = v`. */
  function Without(v: Value, key: string): (r: Value)
    ensures r.Obj? && key !in r.fields
    ensures forall k :: k != key ==> Get(r, k) == Get(v, k)
  {
    if v.Obj? then Obj(v.fields - {key}) else Obj(map[])
  }

  /** An object literal built from optional string properties: a missing one is left out. */
  function StrField(s: Option<string>): Value {
    match s
    case None => Undefined
    case Some(x) => Str(x)
  }

  /** How a value is spelled when substituted into a template literal `${v}`. */
  function TemplateString(v: Value): (r: string)
    ensures v.Str? ==> r == v.s
    ensures v == Undefined ==> r == "undefined"
  {
    match v
    case Undefined => "undefined"
    case Null => "null"
    case Bool(b) => if b then "true" else "false"
    case Num(n) => IntToString(n)
    case Str(s) => s
    case Obj(_) => "[object Object]"
  }
}
