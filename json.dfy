/**
 * The JSON values a ring configuration is made of, as the Python objects
 * `json.load` produces: None, booleans, integers, strings, lists and
 * dictionaries (with their keys in insertion order). What the ring objects
 * need of Python's value semantics is written out here: truthiness,
 * `dict.get`, and `str()` of a value.
 */
module Json {

  import opened Wrappers
  import opened Chars
  import opened Text
  import opened Dicts

  datatype Json =
    | JNull
    | JBool(b: bool)
    | JInt(i: int)
    | JStr(s: string)
    | JList(items: seq<Json>)
    | JObj(fields: Dict<Json>)

  /** Python truthiness: None, False, 0 and empty strings, lists and dictionaries are false. */
  predicate Truthy(j: Json)
  {
    match j
    case JNull => false
    case JBool(b) => b
    case JInt(i) => i != 0
    case JStr(s) => s != ""
    case JList(l) => l != []
    case JObj(d) => d != []
  }

  /** `d.get(k, default)`. */
  function GetOr(d: Dict<Json>, k: string, default: Json): (r: Json)
    ensures HasKey(d, k) ==> Get(d, k) == Some(r)
    ensures !HasKey(d, k) ==> r == default
  {
    match Get(d, k)
    case None => default
    case Some(v) => v
  }

  /** `d.get(k)`: None when the key is missing. */
  function Field(d: Dict<Json>, k: string): Json
  {
    GetOr(d, k, JNull)
  }

  /** `str(n)` of an integer. */
  function IntStr(i: int): string
  {
    if i < 0 then "-" + NatToString(-i) else NatToString(i)
  }

  /** `repr(j)`: strings in single quotes, containers with their items' reprs. */
  function PyRepr(j: Json): string
  {
    match j
    case JNull => "None"
    case JBool(b) => if b then "True" else "False"
    case JInt(i) => IntStr(i)
    case JStr(s) => "'" + s + "'"
    case JList(l) => "[" + Join(", ", seq(|l|, k requires 0 <= k < |l| => PyRepr(l[k]))) + "]"
    case JObj(d) => "{" + Join(", ", seq(|d|, k requires 0 <= k < |d| => "'" + d[k].0 + "': " + PyRepr(d[k].1))) + "}"
  }

  /** `str(j)` (as `format` uses it): a string is itself, anything else its repr. */
  function PyStr(j: Json): (r: string)
    ensures j.JStr? ==> r == j.s
    ensures !j.JStr? ==> r == PyRepr(j)
  {
    if j.JStr? then j.s else PyRepr(j)
  }

  /** A list of names as strings, or None when some entry is not a string. */
  function Strings(l: seq<Json>): (r: Option<seq<string>>)
    ensures r.Some? <==> forall k :: 0 <= k < |l| ==> l[k].JStr?
    ensures r.Some? ==> |r.value| == |l| && forall k :: 0 <= k < |l| ==> r.value[k] == l[k].s
  {
    if l == [] then Some([])
    else if !l[0].JStr? then None
    else
      match Strings(l[1..])
      case None => None
      case Some(rest) => Some([l[0].s] + rest)
  }

  /**
   * What a `for` loop over a value yields: a list its items, a string its
   * characters and a dictionary its keys; None and scalars are not
   * iterable.
   */
  function Iterate(j: Json): (r: Result<seq<Json>>)
    ensures j.JList? ==> r == Ok(j.items)
    ensures j.JObj? ==> r.Ok? && |r.value| == |j.fields|
    ensures j.JNull? || j.JBool? || j.JInt? ==> r.Err? && r.error.TypeError?
  {
    match j
    case JList(l) => Ok(l)
    case JStr(s) => Ok(seq(|s|, k requires 0 <= k < |s| => JStr([s[k]])))
    case JObj(d) => Ok(seq(|d|, k requires 0 <= k < |d| => JStr(d[k].0)))
    case _ => Err(TypeError("object is not iterable"))
  }

  /**
   * `key in j`: a key of a dictionary, an item of a list, a substring of a
   * string; None and scalars raise.
   */
  function Contains(j: Json, key: string): (r: Result<bool>)
    ensures j.JObj? ==> r == Ok(HasKey(j.fields, key))
    ensures j.JList? ==> r == Ok(JStr(key) in j.items)
    ensures j.JNull? || j.JBool? || j.JInt? ==> r.Err? && r.error.TypeError?
  {
    match j
    case JObj(d) => Ok(HasKey(d, key))
    case JList(l) => Ok(JStr(key) in l)
    case JStr(s) => Ok(IndexOf(s, key).Some?)
    case _ => Err(TypeError("argument is not iterable"))
  }

  /** `j[key]` with a string key: a dictionary's value, a KeyError when it is missing; other values raise. */
  function Subscript(j: Json, key: string): (r: Result<Json>)
    ensures r.Ok? <==> j.JObj? && HasKey(j.fields, key)
    ensures r.Ok? ==> Get(j.fields, key) == Some(r.value)
    ensures j.JObj? && !HasKey(j.fields, key) ==> r == Err(KeyError(key))
  {
    match j
    case JObj(d) => (match Get(d, key) case Some(v) => Ok(v) case None => Err(KeyError(key)))
    case _ => Err(TypeError("object is not subscriptable by a string"))
  }
}
