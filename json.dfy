/** Decoded JSON values as both halves of the system see them: the browser
    script (JavaScript) and the update handler (Python). Parsing itself is not
    modelled; a decoded document is one of these values. */
module Json {

  /** `Undefined` is JavaScript's value for a property that is absent; it never
      comes out of a JSON decoder. Numbers are integers. */
  datatype Value =
    | Undefined
    | Null
    | Bool(b: bool)
    | Num(n: int)
    | Str(s: string)
    | Arr(elems: seq<Value>)
    | Obj(fields: map<string, Value>)

  /** JavaScript truthiness: `undefined`, `null`, `false`, `0` and `''` are falsy;
      every array and object is truthy. */
  predicate JsTruthy(v: Value)
  {
    match v
    case Undefined => false
    case Null => false
    case Bool(b) => b
    case Num(n) => n != 0
    case Str(s) => s != ""
    case Arr(_) => true
    case Obj(_) => true
  }

  /** JavaScript `a || b`: the first operand when it is truthy, else the second. */
  function JsOr(a: Value, b: Value): Value
  {
    if JsTruthy(a) then a else b
  }

  /** Reading a property of `undefined` or `null` throws a TypeError. */
  predicate Readable(v: Value)
  {
    !v.Undefined? && !v.Null?
  }

  /** JavaScript `v.key` for a readable value: the member of an object, and
      `undefined` for an absent member or for a primitive or array (none of the
      keys the script reads is an array or string property). */
  function Field(v: Value, key: string): Value
    requires Readable(v)
  {
    if v.Obj? && key in v.fields then v.fields[key] else Undefined
  }

  /** Python truthiness (`not x`): `None`, `False`, `0`, `''`, `[]` and `{}` are falsy. */
  predicate PyTruthy(v: Value)
  {
    match v
    case Undefined => false
    case Null => false
    case Bool(b) => b
    case Num(n) => n != 0
    case Str(s) => s != ""
    case Arr(elems) => elems != []
    case Obj(fields) => fields != map[]
  }

  /** Python `d.get(key)`: `None` for an absent key. */
  function PyGet(fields: map<string, Value>, key: string): Value
  {
    if key in fields then fields[key] else Null
  }
}
