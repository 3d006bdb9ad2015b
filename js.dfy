/** JavaScript values as the view components see them: the primitive kinds
    they compare with `===` and test for truthiness, and plain records read
    by key (object-path lookups on a one-segment path). */
module Js {

  datatype Option<+T> = None | Some(value: T)

  /** A JavaScript value. `Obj` stands for any object, array or function; objects
      compare by identity, which `id` represents. Numbers are integral here. */
  datatype Value = Undefined | Null | Bool(b: bool) | Num(n: int) | Str(s: string) | Obj(id: nat)

  /** JavaScript truthiness: `undefined`, `null`, `false`, `0` and `""` are falsy. */
  predicate Truthy(v: Value) {
    match v
    case Undefined => false
    case Null => false
    case Bool(b) => b
    case Num(n) => n != 0
    case Str(s) => s != ""
    case Obj(_) => true
  }

  /** `a || b` */
  function Or(a: Value, b: Value): Value {
    if Truthy(a) then a else b
  }

  /** A raw record: a plain object whose fields are read by key. */
  type Row = map<string, Value>

  /** `objectPath.get(row, key)` for a non-empty key without dots: the field,
      or `undefined` when it is missing. For an empty or undefined path
      object-path returns the whole object instead; this function gives
      `undefined` there. */
  function Get(row: Row, key: string): Value {
    if key in row then row[key] else Undefined
  }

  /** `s[i]` on a JavaScript array: `undefined` (here `None`) outside the bounds. */
  function At<T>(s: seq<T>, i: int): Option<T> {
    if 0 <= i < |s| then Some(s[i]) else None
  }
}
