/** Parsed JSON values as the services and the controller see them, and the
    two bits of Ruby semantics the core relies on: a missing hash key reads
    as nil, and only nil and false are falsy. */
module Json {

  /** A JSON value after parsing. Numbers are integers here: every field the
      core inspects is a string, a boolean or nil. */
  datatype Value =
    | Null
    | Bool(b: bool)
    | Num(n: int)
    | Str(s: string)
    | Arr(elems: seq<Value>)
    | Obj(fields: map<string, Value>)

  /** A parsed JSON object, keyed by (symbolised) field name. */
  type Body = map<string, Value>

  /** Ruby's nil-or-value, used for optional record attributes. */
  datatype Option<+T> = None | Some(value: T) {
    function GetOr(default: T): T {
      match this
      case Some(v) => v
      case None => default
    }
  }

  /** Ruby's `hash[key]`: nil when the key is absent. */
  function Lookup(m: Body, key: string): (v: Value) {
    if key in m then m[key] else Null
  }

  /** Ruby truthiness: everything except nil and false is true. */
  predicate Truthy(v: Value) {
    !(v.Null? || v == Bool(false))
  }
}
