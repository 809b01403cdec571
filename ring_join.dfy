/**
 * `core/RingObjects/RingJoin.py`: a join of the ring's data source, read
 * from its configuration, written back, and checked for missing fields.
 */
module RingJoins {

  import opened Wrappers
  import opened Dicts
  import opened Json
  import opened RingObject

  /** The configuration fields of a `RingJoin`. */
  datatype JoinState = JoinState(name: Json, from: Json, to: Json, path: Json, bidirectional: Json)

  /** A new join: not bidirectional, every other field None. */
  const NewJoin: JoinState := JoinState(JNull, JNull, JNull, JNull, JBool(false))

  /** `parse`: each field is copied from the configuration, None when absent. */
  function ParseJoin(config: Dict<Json>): JoinState
  {
    JoinState(Field(config, "name"), Field(config, "from"), Field(config, "to"),
      Field(config, "path"), Field(config, "bidirectional"))
  }

  /** `construct`: the five fields under their configuration keys, through `safe_insert`. */
  function ConstructJoin(s: JoinState): (d: Dict<Json>)
  {
    var d0: Dict<Json> := [];
    var d1 := SafeInsert("name", s.name, d0);
    var d2 := SafeInsert("from", s.from, d1);
    var d3 := SafeInsert("to", s.to, d2);
    var d4 := SafeInsert("path", s.path, d3);
    SafeInsert("bidirectional", s.bidirectional, d4)
  }

  /** `construct` writes exactly the five keys, in this order. */
  lemma ConstructJoinItems(s: JoinState)
    ensures ConstructJoin(s) == [("name", Kept(s.name)), ("from", Kept(s.from)), ("to", Kept(s.to)),
      ("path", Kept(s.path)), ("bidirectional", Kept(s.bidirectional))]
  {
    var d0: Dict<Json> := [];
    var d1 := SafeInsert("name", s.name, d0);
    assert !HasKey(d1, "from");
    var d2 := SafeInsert("from", s.from, d1);
    assert !HasKey(d2, "to");
    var d3 := SafeInsert("to", s.to, d2);
    assert !HasKey(d3, "path");
    var d4 := SafeInsert("path", s.path, d3);
    assert !HasKey(d4, "bidirectional");
  }

  /** The messages `is_valid` records for a join. */
  function JoinErrors(s: JoinState): set<string>
  {
    (if s.name == JNull then {"Ring Join 'name' is missing."} else {}) +
    (if s.from == JNull then {"Ring Join 'from_' is missing."} else {}) +
    (if s.to == JNull then {"Ring Join 'to' is missing."} else {}) +
    (if s.path == JNull then {"Ring Join 'path' is missing."} else {})
  }

  /** A join records no message exactly when its name, ends and path are all present. */
  lemma JoinErrorsEmpty(s: JoinState)
    ensures JoinErrors(s) == {} <==> s.name != JNull && s.from != JNull && s.to != JNull && s.path != JNull
  {
    if s.name == JNull { assert "Ring Join 'name' is missing." in JoinErrors(s); }
    if s.from == JNull { assert "Ring Join 'from_' is missing." in JoinErrors(s); }
    if s.to == JNull { assert "Ring Join 'to' is missing." in JoinErrors(s); }
    if s.path == JNull { assert "Ring Join 'path' is missing." in JoinErrors(s); }
  }

  /**
   * Parsing what `construct` wrote gives back every field as `safe_insert`
   * kept it: truthy values and booleans unchanged, other falsy values None.
   */
  lemma JoinRoundTrip(s: JoinState)
    ensures ParseJoin(ConstructJoin(s)) ==
      JoinState(Kept(s.name), Kept(s.from), Kept(s.to), Kept(s.path), Kept(s.bidirectional))
  {
    ConstructJoinItems(s);
    JoinItemsParse(ConstructJoin(s), Kept(s.name), Kept(s.from), Kept(s.to), Kept(s.path), Kept(s.bidirectional));
  }

  lemma JoinItemsParse(d: Dict<Json>, a: Json, b: Json, c: Json, e: Json, f: Json)
    requires d == [("name", a), ("from", b), ("to", c), ("path", e), ("bidirectional", f)]
    ensures ParseJoin(d) == JoinState(a, b, c, e, f)
  {
    var d4: Dict<Json> := [("bidirectional", f)];
    var d3 := [("path", e)] + d4;
    var d2 := [("to", c)] + d3;
    var d1 := [("from", b)] + d2;
    assert d == [("name", a)] + d1;
    GetHead("name", a, d1);
    GetSkip("name", a, d1, "from"); GetHead("from", b, d2);
    GetSkip("name", a, d1, "to"); GetSkip("from", b, d2, "to"); GetHead("to", c, d3);
    GetSkip("name", a, d1, "path"); GetSkip("from", b, d2, "path"); GetSkip("to", c, d3, "path");
    GetHead("path", e, d4);
    GetSkip("name", a, d1, "bidirectional"); GetSkip("from", b, d2, "bidirectional");
    GetSkip("to", c, d3, "bidirectional"); GetSkip("path", e, d4, "bidirectional");
    GetHead("bidirectional", f, []);
  }

  /** A join with name, ends and path truthy keeps them through `construct` and `parse`. */
  lemma TruthyFieldsSurvive(s: JoinState)
    requires Truthy(s.name) && Truthy(s.from) && Truthy(s.to) && Truthy(s.path)
    ensures var t := ParseJoin(ConstructJoin(s));
      t.name == s.name && t.from == s.from && t.to == s.to && t.path == s.path
  {
    JoinRoundTrip(s);
  }

  class RingJoin {
    var name: Json
    var from: Json
    var to: Json
    var path: Json
    var bidirectional: Json
    var errorSet: set<string>

    function Snap(): JoinState
      reads this
    {
      JoinState(name, from, to, path, bidirectional)
    }

    constructor()
      ensures Snap() == NewJoin && errorSet == {}
    {
      name, from, to, path := JNull, JNull, JNull, JNull;
      bidirectional := JBool(false);
      errorSet := {};
    }

    /** `parse(join_config)`. */
    method Parse(config: Dict<Json>)
      modifies this
      ensures Snap() == ParseJoin(config) && errorSet == old(errorSet)
    {
      name := Field(config, "name");
      from := Field(config, "from");
      to := Field(config, "to");
      path := Field(config, "path");
      bidirectional := Field(config, "bidirectional");
    }

    /** `construct()`. */
    method Construct() returns (d: Dict<Json>)
      ensures d == ConstructJoin(Snap())
    {
      d := [];
      d := SafeInsert("name", name, d);
      d := SafeInsert("from", from, d);
      d := SafeInsert("to", to, d);
      d := SafeInsert("path", path, d);
      d := SafeInsert("bidirectional", bidirectional, d);
    }

    /**
     * `is_valid()`: adds a message per missing field to the persistent
     * error set, and reports validity when the set is empty. (The Python
     * method returns the messages joined with spaces, in set order.)
     */
    method IsValid() returns (ok: bool, errors: set<string>)
      modifies this`errorSet
      ensures errorSet == old(errorSet) + JoinErrors(Snap())
      ensures errors == errorSet && (ok <==> errorSet == {})
    {
      var found: set<string> := {};
      if name == JNull {
        found := found + {"Ring Join 'name' is missing."};
      }
      if from == JNull {
        found := found + {"Ring Join 'from_' is missing."};
      }
      if to == JNull {
        found := found + {"Ring Join 'to' is missing."};
      }
      if path == JNull {
        found := found + {"Ring Join 'path' is missing."};
      }
      errorSet := errorSet + found;
      ok := errorSet == {};
      errors := errorSet;
    }
  }
}
