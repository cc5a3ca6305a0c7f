/**
 * Values of a decoded JSON document as Python sees them (dict, list, str, int,
 * bool, None), with the Python operations the webhook and API code apply to
 * them and the exceptions those operations raise.
 */
module PyJson {
  import Text

  datatype Json =
    | JNull
    | JBool(b: bool)
    | JNum(n: int)
    | JStr(s: string)
    | JArr(items: seq<Json>)
    | JObj(fields: map<string, Json>)

  /** The exceptions the source distinguishes. */
  datatype PyError = KeyError | IndexError | TypeError | AttributeError

  /** The outcome of one Python expression: a value, or the exception it raises. */
  datatype Py<T> = Ok(value: T) | Err(error: PyError)

  /** `bool(j)` */
  predicate Truthy(j: Json) {
    match j
    case JNull => false
    case JBool(b) => b
    case JNum(n) => n != 0
    case JStr(s) => s != ""
    case JArr(a) => a != []
    case JObj(m) => m != map[]
  }

  /** `str(j)`. Lists and dicts are rendered as the placeholders "[...]" and "{...}", not with their contents. */
  function Show(j: Json): string {
    match j
    case JNull => "None"
    case JBool(b) => if b then "True" else "False"
    case JNum(n) => Text.IntToString(n)
    case JStr(s) => s
    case JArr(_) => "[...]"
    case JObj(_) => "{...}"
  }

  /** `d.get(k, default)`: only a dict has `.get`; anything else raises AttributeError. */
  function Get(d: Json, k: string, default: Json): (r: Py<Json>)
    ensures r.Err? <==> !d.JObj?
    ensures d.JObj? && k in d.fields ==> r == Ok(d.fields[k])
    ensures d.JObj? && k !in d.fields ==> r == Ok(default)
  {
    match d
    case JObj(m) => Ok(if k in m then m[k] else default)
    case _ => Err(AttributeError)
  }

  /** `x[k]` for a string key: a dict looks the key up, every other value refuses a str index. */
  function Subscript(x: Json, k: string): (r: Py<Json>)
    ensures r.Ok? <==> x.JObj? && k in x.fields
    ensures r.Ok? ==> r.value == x.fields[k]
    ensures x.JObj? && k !in x.fields ==> r == Err(KeyError)
    ensures !x.JObj? ==> r == Err(TypeError)
  {
    match x
    case JObj(m) => if k in m then Ok(m[k]) else Err(KeyError)
    case _ => Err(TypeError)
  }

  /** `x[0]`: the first item of a list or string; a dict has no key 0; scalars are not subscriptable. */
  function First(x: Json): (r: Py<Json>)
    ensures x.JArr? && x.items != [] ==> r == Ok(x.items[0])
    ensures (x.JArr? && x.items == []) || (x.JStr? && x.s == "") ==> r == Err(IndexError)
    ensures x.JObj? ==> r == Err(KeyError)
  {
    match x
    case JArr(a) => if a == [] then Err(IndexError) else Ok(a[0])
    case JStr(s) => if s == "" then Err(IndexError) else Ok(JStr([s[0]]))
    case JObj(_) => Err(KeyError)
    case _ => Err(TypeError)
  }

  /** `k in d` for a dict `d`. */
  predicate HasKey(d: Json, k: string) {
    d.JObj? && k in d.fields
  }
}
