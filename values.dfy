/**
 * The JavaScript values the test runner inspects: what a test body throws,
 * what an adapter puts into an outcome, and what becomes a reason. Only the
 * operations the runner applies to them are modelled: ToBoolean (for `if (v)`
 * and `a || b`), loose equality with `null`, and reading `.message`.
 */
module Values {

  datatype Option<+T> = None | Some(value: T)

  /** A JavaScript value. Numbers are integers; `Obj` is any object, of which
      only its `message` property is ever read. */
  datatype Value =
    | Undefined
    | Null
    | Bool(b: bool)
    | Num(n: int)
    | Str(s: string)
    | Obj(message: Value)

  /** ToBoolean: the values that `if (v)` and `||` treat as true. */
  predicate Truthy(v: Value) {
    match v
    case Undefined => false
    case Null => false
    case Bool(b) => b
    case Num(n) => n != 0
    case Str(s) => s != ""
    case Obj(_) => true
  }

  /** `v == null` under loose equality: true of null and of undefined. */
  predicate Nullish(v: Value) {
    v.Undefined? || v.Null?
  }

  /** `a || b`: the first operand when it is truthy, the second otherwise. */
  function Or(a: Value, b: Value): (r: Value)
    ensures Truthy(a) ==> r == a
    ensures !Truthy(a) ==> r == b
    ensures Truthy(r) <==> Truthy(a) || Truthy(b)
  {
    if Truthy(a) then a else b
  }

  /** `v.message` on a value that is not null or undefined: an object's
      property, and undefined on a boolean, number or string. */
  function MessageOf(v: Value): Value {
    match v
    case Obj(m) => m
    case _ => Undefined
  }
}
