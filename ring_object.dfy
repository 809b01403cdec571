/**
 * `core/RingObjects/RingObject.py`: the helpers every ring class inherits
 * for reading a configuration dictionary and for writing one back.
 */
module RingObject {

  import opened Wrappers
  import opened Dicts
  import opened Json

  /**
   * `safe_extract_list(key, d)`: a missing or falsy value gives None, a
   * list is returned as it is, and any other value is wrapped in a list of
   * one.
   */
  function SafeExtractList(key: string, d: Dict<Json>): (r: Option<seq<Json>>)
    ensures r.None? <==> !Truthy(Field(d, key))
    ensures r.Some? ==> r.value != []
    ensures r.Some? && Field(d, key).JList? ==> r.value == Field(d, key).items
    ensures r.Some? && !Field(d, key).JList? ==> r.value == [Field(d, key)]
  {
    var v := Field(d, key);
    if !Truthy(v) then None
    else if v.JList? then Some(v.items)
    else Some([v])
  }

  /** What `safe_insert` stores for a value: the value when truthy or a bool, else None. */
  function Kept(v: Json): (r: Json)
    ensures Truthy(v) || v.JBool? ==> r == v
    ensures !(Truthy(v) || v.JBool?) ==> r == JNull
  {
    if Truthy(v) || v.JBool? then v else JNull
  }

  /**
   * `safe_insert(key, value, d)`: the key is always set, to what `Kept`
   * keeps of the value. The dictionary the Python code updates is returned
   * as the new dictionary: an existing key keeps its place, a new one is
   * appended.
   */
  function SafeInsert(key: string, value: Json, d: Dict<Json>): (r: Dict<Json>)
    ensures HasKey(d, key) ==> Keys(r) == Keys(d)
    ensures !HasKey(d, key) ==> r == d + [(key, Kept(value))]
  {
    Put(d, key, Kept(value))
  }

  /** After `safe_insert`, the key looks up what was kept and no other key changes. */
  lemma SafeInsertGet(key: string, value: Json, d: Dict<Json>, j: string)
    ensures Get(SafeInsert(key, value, d), j) == if j == key then Some(Kept(value)) else Get(d, j)
  {
    PutGet(d, key, Kept(value), j);
  }

  /** Reading a list back after inserting it gives the list, unless it was empty. */
  lemma ExtractAfterInsert(key: string, l: seq<Json>, d: Dict<Json>)
    ensures SafeExtractList(key, SafeInsert(key, JList(l), d)) == if l == [] then None else Some(l)
  {
    SafeInsertGet(key, JList(l), d, key);
  }

  /** `RingObject.is_valid`: the base class always reports itself invalid. */
  function BaseIsValid(): (r: (bool, set<string>))
    ensures !r.0 && |r.1| == 1
  {
    (false, {"initialization set to false."})
  }
}
