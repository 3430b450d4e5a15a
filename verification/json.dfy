/**
 JSON values as the relay server sees them in its event payloads.

 Payloads are JSON objects whose fields are scalars. Reading a field that the
 object lacks yields `undefined`, as a JavaScript property read does. The
 server tests identifiers for JavaScript truthiness and uses them as keys of a
 JavaScript `Map`, whose key equality (SameValueZero) on these scalars is the
 structural equality of `JsValue`.
 */
module Json {

  datatype Option<+T> = None | Some(value: T)

  /** A scalar JSON value; numbers are integers in this model. */
  datatype JsValue =
    | Undefined
    | Null
    | Bool(b: bool)
    | Num(n: int)
    | Str(s: string)

  /** A JSON object with scalar fields, as received from a client. */
  type Payload = map<string, JsValue>

  /** `obj.key`: the field's value, or `undefined` when the object lacks it. */
  function Field(obj: Payload, key: string): JsValue
  {
    if key in obj then obj[key] else Undefined
  }

  /** JavaScript truthiness: `undefined`, `null`, `false`, `0` and `""` are falsy. */
  predicate Truthy(v: JsValue)
    ensures Truthy(v) <==> v !in {Undefined, Null, Bool(false), Num(0), Str("")}
  {
    match v
    case Undefined => false
    case Null => false
    case Bool(b) => b
    case Num(n) => n != 0
    case Str(s) => s != ""
  }

  /** `Map.get`: the value stored under `key`, if any. */
  function Lookup<K, V>(m: map<K, V>, key: K): Option<V>
  {
    if key in m then Some(m[key]) else None
  }
}
