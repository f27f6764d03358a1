/**
 * Decoded JSON values as the client handles them, together with the two
 * pieces of Python semantics the client relies on when it looks at them:
 * truthiness (`bool(v)`, `if v:`) and equality (`==`).
 */
module Json {
  import opened Wrappers

  /** A decoded JSON document. JSON numbers (Python `int` or `float`) are exact reals. */
  datatype Json =
    | JNull
    | JBool(b: bool)
    | JNum(n: real)
    | JStr(s: string)
    | JArr(items: seq<Json>)
    | JObj(fields: map<string, Json>)

  /** Python `bool(v)`: `None`, `False`, zero and empty containers are false. */
  predicate Truthy(v: Json)
  {
    match v
    case JNull => false
    case JBool(b) => b
    case JNum(n) => n != 0.0
    case JStr(s) => s != ""
    case JArr(items) => items != []
    case JObj(fields) => fields != map[]
  }

  /** Python treats `bool` as a numeric type: `True == 1` and `False == 0.0`. */
  function NumericValue(v: Json): Option<real>
  {
    match v
    case JBool(b) => Some(if b then 1.0 else 0.0)
    case JNum(n) => Some(n)
    case _ => None
  }

  /** Python `a == b` on decoded JSON values. */
  predicate PyEq(a: Json, b: Json)
  {
    match (a, b)
    case (JNull, JNull) => true
    case (JStr(s), JStr(t)) => s == t
    case (JArr(xs), JArr(ys)) =>
      |xs| == |ys| && forall i :: 0 <= i < |xs| ==> PyEq(xs[i], ys[i])
    case (JObj(f), JObj(g)) =>
      f.Keys == g.Keys && forall k :: k in f ==> PyEq(f[k], g[k])
    case _ => NumericValue(a).Some? && NumericValue(a) == NumericValue(b)
  }

  /** Python `d.get(key)` on a dict: the member, or `None` when absent. */
  function Get(fields: map<string, Json>, key: string): Json
  {
    if key in fields then fields[key] else JNull
  }

  /** Python `d.get(key, default)`. */
  function GetOr(fields: map<string, Json>, key: string, default: Json): Json
  {
    if key in fields then fields[key] else default
  }

  /** `==` is reflexive on every decoded value. */
  lemma {:induction false} PyEqReflexive(a: Json)
    ensures PyEq(a, a)
  {
    match a
    case JArr(xs) =>
      forall i | 0 <= i < |xs| ensures PyEq(xs[i], xs[i]) {
        PyEqReflexive(xs[i]);
      }
    case JObj(f) =>
      forall k | k in f ensures PyEq(f[k], f[k]) {
        PyEqReflexive(f[k]);
      }
    case _ =>
  }

  /** `==` is symmetric on every decoded value. */
  lemma {:induction false} PyEqSymmetric(a: Json, b: Json)
    requires PyEq(a, b)
    ensures PyEq(b, a)
  {
    match (a, b)
    case (JArr(xs), JArr(ys)) =>
      forall i | 0 <= i < |ys| ensures PyEq(ys[i], xs[i]) {
        PyEqSymmetric(xs[i], ys[i]);
      }
    case (JObj(f), JObj(g)) =>
      forall k | k in g ensures PyEq(g[k], f[k]) {
        PyEqSymmetric(f[k], g[k]);
      }
    case _ =>
  }

  /** The only decoded values equal to `True` are `True` itself and the number 1. */
  lemma EqualsTrue(a: Json)
    ensures PyEq(a, JBool(true)) <==> a == JBool(true) || a == JNum(1.0)
  {
  }
}
