/** JSON values as JavaScript and Python see them after parsing, with JavaScript truthiness. */
module Json {
  import opened Wrappers

  /** A parsed JSON value. Numbers are exact reals: floating-point rounding is not modelled. */
  datatype Json =
    | JNull
    | JBool(b: bool)
    | JNum(n: real)
    | JStr(s: string)
    | JArr(items: seq<Json>)
    | JObj(fields: map<string, Json>)

  /** A JSON object with a single member. */
  function Obj1(k: string, v: Json): (r: Json)
    ensures r.JObj? && r.fields.Keys == {k} && r.fields[k] == v
  {
    JObj(map[k := v])
  }

  /** JavaScript `undefined` or `null`: reading a property of such a value throws a TypeError. */
  predicate Nullish(v: Option<Json>) {
    v.None? || v.value.JNull?
  }

  /** JavaScript property read `v.key` on a value that is not nullish; `None` stands for `undefined`. */
  function Prop(v: Option<Json>, key: string): (r: Option<Json>)
    requires !Nullish(v)
    ensures r.Some? <==> v.value.JObj? && key in v.value.fields
    ensures r.Some? ==> r.value == v.value.fields[key]
  {
    match v.value
    case JObj(m) => if key in m then Some(m[key]) else None
    case _ => None
  }

  /** JavaScript's ToBoolean on a possibly-undefined JSON value: `undefined`, `null`, `false`, `0` and `""` are falsy. */
  predicate Truthy(v: Option<Json>) {
    match v
    case None => false
    case Some(j) =>
      match j
      case JNull => false
      case JBool(b) => b
      case JNum(n) => n != 0.0
      case JStr(s) => s != ""
      case JArr(_) => true
      case JObj(_) => true
  }

  /** The number a JSON value contributes to `x || 0`: its own value when it is a truthy number, else 0. */
  function NumOrZero(v: Option<Json>): (r: real)
    ensures r != 0.0 ==> Truthy(v) && v.value.JNum? && v.value.n == r
    ensures Truthy(v) && v.value.JNum? ==> r == v.value.n
  {
    if v.Some? && v.value.JNum? then v.value.n else 0.0
  }
}
