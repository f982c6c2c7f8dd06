/**
 * The client's plain JavaScript values, as far as the reducers, guards and
 * forms look at them: a flat object maps keys to scalars. A key that is
 * absent reads as `undefined`, which this model does not tell apart from
 * `null`.
 */
module JsValues {
  import opened Base

  datatype Json = JStr(str: string) | JNum(num: int) | JBool(flag: bool) | JNull

  type Obj = map<string, Json>

  /** `o[key]` */
  function Get(o: Obj, key: string): (v: Json)
    ensures key !in o ==> v == JNull
  {
    if key in o then o[key] else JNull
  }

  /** JavaScript truthiness. */
  predicate Truthy(v: Json) {
    match v
    case JStr(s) => s != ""
    case JNum(n) => n != 0
    case JBool(b) => b
    case JNull => false
  }

  /** `v || fallback` for a value read into a text field. */
  function TextOr(v: Json, fallback: string): (s: string)
    ensures v.JStr? && v.str != "" ==> s == v.str
    ensures !Truthy(v) ==> s == fallback
  {
    if v.JStr? && v.str != "" then v.str else fallback
  }

  /** `user?.role === "admin"`: false for a null user. */
  predicate IsAdmin(user: Option<Obj>) {
    user.Some? && Get(user.value, "role") == JStr("admin")
  }

  /** `const { key, ...rest } = o`: the rest. */
  function Omit(o: Obj, key: string): (r: Obj)
    ensures key !in r
    ensures forall k :: k != key ==> Get(r, k) == Get(o, k)
  {
    o - {key}
  }
}
