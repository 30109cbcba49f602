/**
 * JSON values as `response.json()` hands them to the Python code, and the two
 * Python operations the client applies to them: the membership test
 * `key in value` and the subscript `value[key]`.
 *
 * Python does not restrict either operation to dictionaries: `in` on a string
 * is a substring test, `in` on a list compares elements, `in` on a number,
 * a boolean or `None` raises `TypeError`, and subscripting anything but a
 * dictionary with a string raises as well. Every such exception ends up in the
 * client's single `except` clause, so a raised exception is a value here
 * (`Raise`) rather than a failure of the model.
 */
module PyJson {
  import opened Common

  datatype Json =
    | JObj(fields: map<string, Json>)
    | JArr(items: seq<Json>)
    | JStr(text: string)
    | JNum(number: real)
    | JBool(flag: bool)
    | JNull

  /** The result of evaluating a Python expression: a value, or an exception. */
  datatype Py<+T> = Val(v: T) | Raise

  /** `sub in s` for two Python strings. */
  predicate Occurs(sub: string, s: string)
    decreases |s|
  {
    |sub| <= |s| && (s[..|sub|] == sub || (|s| > 0 && Occurs(sub, s[1..])))
  }

  /** `key in j` */
  function In(key: string, j: Json): (r: Py<bool>)
    ensures j.JObj? ==> r == Val(key in j.fields)
    ensures (j.JNum? || j.JBool? || j.JNull?) ==> r == Raise
  {
    match j
    case JObj(m) => Val(key in m)
    case JStr(s) => Val(Occurs(key, s))
    case JArr(items) => Val(JStr(key) in items)
    case _ => Raise
  }

  /** `j[key]`: a present key of a dictionary, otherwise an exception. */
  function Get(j: Json, key: string): (r: Py<Json>)
    ensures r.Val? <==> j.JObj? && key in j.fields
    ensures r.Val? ==> r.v == j.fields[key]
  {
    if j.JObj? && key in j.fields then Val(j.fields[key]) else Raise
  }

  /** Python's short-circuit `a and b` over expressions that may raise. */
  function And(a: Py<bool>, b: Py<bool>): Py<bool> {
    match a
    case Raise => Raise
    case Val(x) => if x then b else Val(false)
  }

  /** Python's short-circuit `a or b` over expressions that may raise. */
  function Or(a: Py<bool>, b: Py<bool>): Py<bool> {
    match a
    case Raise => Raise
    case Val(x) => if x then Val(true) else b
  }

  /** `j[k] == v`, raising when `j[k]` does. */
  function Equals(j: Json, k: string, v: Json): Py<bool> {
    match Get(j, k)
    case Raise => Raise
    case Val(x) => Val(x == v)
  }

  /** `k in j and j[k] == v` */
  function FieldIs(j: Json, k: string, v: Json): Py<bool> {
    And(In(k, j), Equals(j, k, v))
  }

  /** `outer in j and k in j[outer]` */
  function HasNested(j: Json, outer: string, k: string): Py<bool> {
    And(In(outer, j), match Get(j, outer) case Raise => Raise case Val(x) => In(k, x))
  }

  /** `j[outer][k]` */
  function GetNested(j: Json, outer: string, k: string): Py<Json> {
    match Get(j, outer)
    case Raise => Raise
    case Val(x) => Get(x, k)
  }

  /** `outer in j and k in j[outer] and j[outer][k] == v` */
  function NestedIs(j: Json, outer: string, k: string, v: Json): Py<bool> {
    And(HasNested(j, outer, k), match GetNested(j, outer, k) case Raise => Raise case Val(x) => Val(x == v))
  }

  /** Python truthiness of a JSON value (`if value:`). */
  predicate Truthy(j: Json) {
    match j
    case JObj(m) => |m| > 0
    case JArr(items) => |items| > 0
    case JStr(s) => |s| > 0
    case JNum(n) => n != 0.0
    case JBool(b) => b
    case JNull => false
  }

  /** Plain dictionary reading, used to state contracts: the value under `k` when `j` is an object that has it. */
  function Field(j: Json, k: string): (r: Option<Json>)
    ensures r.Some? <==> j.JObj? && k in j.fields
  {
    if j.JObj? && k in j.fields then Some(j.fields[k]) else None
  }

  /** Plain dictionary reading one level down: `j[outer][k]` when both exist. */
  function Field2(j: Json, outer: string, k: string): Option<Json> {
    match Field(j, outer)
    case None => None
    case Some(x) => Field(x, k)
  }
}
