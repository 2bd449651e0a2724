/** The small part of JavaScript's value semantics that the library relies on:
    the values that flow through actions and loader records, truthiness
    (`!!v`), reading a property (which throws on `undefined` and `null`) and
    the object spread `{...v}`. */
module JsValues {

  /** A JavaScript value. Objects are compared by contents, functions by an
      identity number. */
  datatype Value =
    | Undefined
    | Null
    | Bool(b: bool)
    | Num(n: int)
    | Str(s: string)
    | Obj(fields: map<string, Value>)
    | Fn(id: nat)

  datatype Option<T> = None | Some(value: T)

  /** The outcome of an expression that may throw a `TypeError`. */
  datatype Result<T> = Ok(value: T) | TypeError

  /** JavaScript truthiness: `!!v`. */
  predicate Truthy(v: Value) {
    match v
    case Undefined => false
    case Null => false
    case Bool(b) => b
    case Num(n) => n != 0
    case Str(s) => s != ""
    case Obj(_) => true
    case Fn(_) => true
  }

  /** `v.key` does not throw exactly when `v` is neither `undefined` nor `null`. */
  predicate Readable(v: Value) {
    !v.Undefined? && !v.Null?
  }

  /** The value of `v.key` when that read does not throw: an object's own entry,
      `undefined` for a missing key and for every primitive and function (none of
      the keys this library reads is a built-in property). */
  function Get(v: Value, key: string): (r: Value)
    ensures v.Obj? && key in v.fields ==> r == v.fields[key]
    ensures !(v.Obj? && key in v.fields) ==> r == Undefined
  {
    if v.Obj? && key in v.fields then v.fields[key] else Undefined
  }

  /** `v.key`, with the `TypeError` of a read from `undefined` or `null`. */
  function ReadProp(v: Value, key: string): (r: Result<Value>)
    ensures r.TypeError? <==> !Readable(v)
    ensures r.Ok? ==> r.value == Get(v, key)
  {
    if Readable(v) then Ok(Get(v, key)) else TypeError
  }

  /** The own enumerable properties `{...v}` copies: an object's entries, nothing
      for `undefined`, `null`, numbers, booleans and functions. */
  function Spread(v: Value): (r: map<string, Value>)
    ensures v.Obj? ==> r == v.fields
    ensures !v.Obj? && !v.Str? ==> r == map[]
  {
    if v.Obj? then v.fields else map[]
  }

  /** Reading a key of a plain object: a missing key reads as `undefined`. */
  function Lookup(m: map<string, Value>, key: string): (r: Value)
    ensures key in m ==> r == m[key]
    ensures key !in m ==> r == Undefined
  {
    if key in m then m[key] else Undefined
  }
}
