/** The JavaScript values the session inspects or passes along. */
module Values {

  /** A value as far as the session looks at it. Objects and functions are
      opaque references: the session only tests them for truthiness. */
  datatype Value =
    | Undefined
    | Null
    | Bool(b: bool)
    | Num(n: int)
    | Str(s: string)
    | Ref(address: nat)

  /** JavaScript truthiness, as used by `if (v)`, `!!v` and `v || d`.
      NaN is not modelled. */
  predicate Truthy(v: Value) {
    match v
    case Undefined => false
    case Null => false
    case Bool(b) => b
    case Num(n) => n != 0
    case Str(s) => s != ""
    case Ref(_) => true
  }

  /** A plain object with string keys: `options.ssh`, `vars`, a connection
      info, an execution context. */
  type Object = map<string, Value>

  /** Property read `o.k`: a missing key reads as `undefined`. */
  function Get(o: Object, k: string): Value {
    if k in o then o[k] else Undefined
  }

  /** The error object a collaborator reports; only its identity matters. */
  datatype Error = Error(message: string)
}
