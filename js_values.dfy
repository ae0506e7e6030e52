/** JavaScript values as the runtime wrapper sees them: what user code exports,
    what the secrets payload holds, and what user functions return. */
module JsValues {

  datatype Option<+T> = None | Some(value: T)

  /** A JavaScript value. Numbers are integers here; objects are their own
      enumerable properties; a user function is an opaque reference `Fn(id)`
      whose behaviour is given by a `Host`; objects created by the wrapper's
      libraries (the GraphQL extension stack, a TypeError) are `HostObject`s. */
  datatype JsValue =
    | Undefined
    | Null
    | Bool(b: bool)
    | Num(n: int)
    | Str(s: string)
    | Obj(props: map<string, JsValue>)
    | Fn(id: nat)
    | HostObject(name: string)

  /** JavaScript truthiness, as used by `if (x)`, `!x` and `x || y`. */
  predicate Truthy(v: JsValue) {
    match v
    case Undefined => false
    case Null => false
    case Bool(b) => b
    case Num(n) => n != 0
    case Str(s) => s != ""
    case Obj(_) => true
    case Fn(_) => true
    case HostObject(_) => true
  }

  /** `a || b` */
  function Or(a: JsValue, b: JsValue): JsValue {
    if Truthy(a) then a else b
  }

  /** Property read `m[k]` on a plain object: `undefined` when the key is absent. */
  function Lookup(m: map<string, JsValue>, k: string): JsValue {
    if k in m then m[k] else Undefined
  }

  /** The own enumerable properties that `Object.assign` copies from a source. */
  function OwnProps(v: JsValue): map<string, JsValue> {
    if v.Obj? then v.props else map[]
  }

  /** How a call to user code ends: with a value or by throwing one. */
  datatype Completion = Normal(value: JsValue) | Throw(error: JsValue)

  /** The behaviour of the user's functions, by reference and arguments. */
  type Host = (nat, seq<JsValue>) -> Completion

  /** What calling a value that is not a function throws. */
  const NotCallable: JsValue := HostObject("TypeError")

  /** `f(args...)` */
  function Call(host: Host, f: JsValue, args: seq<JsValue>): Completion {
    if f.Fn? then host(f.id, args) else Throw(NotCallable)
  }
}
