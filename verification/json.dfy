/**
  The values `json.loads` produces, and the handful of Python operations the
  extractor applies to them: truthiness, `str()`, `a or b`, `d.get(k, default)`
  and `x[0]`.
*/
module JsonValues {
  import opened Outcomes

  /**
    A parsed JSON value. Python's `None` is `JNull`. A number carries the text
    Python's `str()` gives for it (`3`, `2.5`, `0.0`), which is all the
    extractor ever does with one besides testing it for truth.
  */
  datatype Json =
    | JNull
    | JBool(b: bool)
    | JNum(text: string)
    | JStr(s: string)
    | JArr(items: seq<Json>)
    | JObj(fields: map<string, Json>)

  const EmptyObj: Json := JObj(map[])

  /** Python's `bool(x)`. A number is false exactly when it is zero. */
  predicate Truthy(j: Json) {
    match j
    case JNull => false
    case JBool(b) => b
    case JNum(t) => t != "0" && t != "0.0" && t != "-0.0"
    case JStr(s) => s != ""
    case JArr(xs) => xs != []
    case JObj(m) => m != map[]
  }

  /**
    Python's `str(x)`: "None", "True" or "False", the number's text, the
    string itself. For a list or a dict Python prints its repr, which this
    model does not reproduce: it keeps only that the text is not empty.
  */
  function ToStr(j: Json): (s: string)
    ensures j.JStr? ==> s == j.s
    ensures j.JNull? ==> s == "None"
    ensures j.JBool? ==> s == (if j.b then "True" else "False")
    ensures j.JNum? ==> s == j.text
    ensures j.JNull? || j.JBool? || j.JArr? || j.JObj? ==> s != ""
  {
    match j
    case JNull => "None"
    case JBool(b) => if b then "True" else "False"
    case JNum(t) => t
    case JStr(s) => s
    case JArr(_) => "[...]"
    case JObj(_) => "{...}"
  }

  /** Python's `a or b`. */
  function Or(a: Json, b: Json): (r: Json)
    ensures r == a || r == b
    ensures Truthy(b) ==> Truthy(r)
    ensures Truthy(a) ==> r == a
  {
    if Truthy(a) then a else b
  }

  /** `d.get(key, default)` on a dict's entries. */
  function Lookup(fields: map<string, Json>, key: string, default: Json): (r: Json)
    ensures key in fields ==> r == fields[key]
    ensures key !in fields ==> r == default
  {
    if key in fields then fields[key] else default
  }

  /** `x.get(key, default)`: only a dict has a `get`. */
  function Get(x: Json, key: string, default: Json): (r: Result<Json>)
    ensures r.Ok? <==> x.JObj?
    ensures r.Err? ==> r.error == AttributeError
    ensures r.Ok? && key in x.fields ==> r.value == x.fields[key]
    ensures r.Ok? && key !in x.fields ==> r.value == default
  {
    if x.JObj? then Ok(Lookup(x.fields, key, default)) else Err(AttributeError)
  }

  /** `x[0]` */
  function Index0(x: Json): (r: Result<Json>)
    ensures r.Ok? <==> (x.JArr? || x.JStr?) && Truthy(x)
    ensures x.JObj? ==> r == Err(KeyError)
    ensures r == Err(IndexError) <==> x == JArr([]) || x == JStr("")
    ensures x.JArr? && x.items != [] ==> r == Ok(x.items[0])
    ensures x.JStr? && x.s != "" ==> r == Ok(JStr([x.s[0]]))
    ensures x.JNull? || x.JBool? || x.JNum? ==> r == Err(TypeError)
  {
    match x
    case JArr(xs) => if xs == [] then Err(IndexError) else Ok(xs[0])
    case JStr(s) => if s == "" then Err(IndexError) else Ok(JStr([s[0]]))
    case JObj(_) => Err(KeyError)
    case _ => Err(TypeError)
  }
}
