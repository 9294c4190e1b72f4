/** Decoded JSON documents and the Python operations the application applies to them. */
module JsonData {
  import opened Text

  /** A decoded JSON document (numbers with a fraction are not modelled). */
  datatype Json =
    | JNull
    | JBool(b: bool)
    | JInt(i: int)
    | JStr(s: string)
    | JList(items: seq<Json>)
    | JObject(fields: map<string, Json>)

  /** Python truthiness of a decoded JSON value. */
  predicate Truthy(j: Json)
  {
    match j
    case JNull => false
    case JBool(b) => b
    case JInt(i) => i != 0
    case JStr(s) => s != ""
    case JList(items) => items != []
    case JObject(fields) => fields != map[]
  }

  /** The number a Python `bool` or `int` stands for (`True == 1`, `False == 0`). */
  function NumberOf(j: Json): int
    requires j.JBool? || j.JInt?
  {
    if j.JInt? then j.i else if j.b then 1 else 0
  }

  /**
   * Python `==` on decoded values: a `bool` equals the `int` it stands for;
   * other values are equal when they are the same value.
   */
  predicate PyEq(a: Json, b: Json)
  {
    if (a.JBool? || a.JInt?) && (b.JBool? || b.JInt?) then NumberOf(a) == NumberOf(b) else a == b
  }

  /** `str(j)` for scalars; lists and dicts are only told apart by their opening bracket. */
  function PyStr(j: Json): (r: string)
    ensures j.JInt? ==> r == IntToString(j.i)
    ensures j.JStr? ==> r == j.s
    ensures !j.JStr? ==> r != [] && (j.JInt? <==> (r[0] == '-' || IsDigit(r[0])))
  {
    match j
    case JNull => "None"
    case JBool(b) => if b then "True" else "False"
    case JInt(i) => IntToString(i)
    case JStr(s) => s
    case JList(_) => "[...]"
    case JObject(_) => "{...}"
  }

  /** `PyEq` is an equivalence: reflexive, symmetric and transitive. */
  lemma {:induction false} PyEqEquivalence(a: Json, b: Json, c: Json)
    ensures PyEq(a, a)
    ensures PyEq(a, b) ==> PyEq(b, a)
    ensures PyEq(a, b) && PyEq(b, c) ==> PyEq(a, c)
  {
  }
}
