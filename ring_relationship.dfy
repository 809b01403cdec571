/**
 * `core/RingObjects/RingRelationship.py`: a relationship between two
 * entities of the ring, either declared with its joins or derived from a
 * list of other relationships.
 */
module RingRelationships {

  import opened Wrappers
  import opened Dicts
  import opened Json
  import opened RingObject

  /** The fields of a `RingRelationship`. */
  datatype RelState = RelState(
    id: Json,
    name: Json,
    fro: Json,
    to: Json,
    join: Option<seq<Json>>,
    relType: Json,
    bidirectional: Json,
    relList: Json,
    fromName: Json,
    toName: Json)

  /** A new relationship: many-to-many, bidirectional, no joins and no member relationships. */
  const NewRelationship: RelState :=
    RelState(JNull, JNull, JNull, JNull, Some([]), JStr("m2m"), JBool(true), JList([]), JNull, JNull)

  /** The join list as a JSON value: None, or the list. */
  function JoinJson(join: Option<seq<Json>>): Json
  {
    match join
    case None => JNull
    case Some(l) => JList(l)
  }

  /** `"{}{}{}{}".format(fro, name, to, join)`. */
  function RelationshipId(fro: Json, name: Json, to: Json, join: Option<seq<Json>>): string
  {
    PyStr(fro) + PyStr(name) + PyStr(to) + PyStr(JoinJson(join))
  }

  /**
   * `parse(config)` applied to a relationship in state `s`. A derived
   * relationship takes its member list and loses its joins, keeping its
   * type and direction; any other takes its joins through
   * `safe_extract_list`, its type (default many-to-many) and its direction
   * (default bidirectional). Both then get their id.
   */
  function ParseRelationship(s: RelState, config: Dict<Json>): RelState
  {
    var base := s.(name := Field(config, "name"), fro := Field(config, "from"), to := Field(config, "to"),
      fromName := Field(config, "fromName"), toName := Field(config, "toName"));
    var t :=
      if Truthy(Field(config, "derived")) then
        base.(relList := Field(config, "relationshipList"), join := None)
      else
        base.(join := SafeExtractList("join", config), relType := GetOr(config, "relation", JStr("m2m")),
          bidirectional := GetOr(config, "bidirectional", JBool(true)));
    t.(id := JStr(RelationshipId(t.fro, t.name, t.to, t.join)))
  }

  /** `construct()`: seven keys through `safe_insert`. */
  function ConstructRelationship(s: RelState): Dict<Json>
  {
    var d0: Dict<Json> := [];
    var d1 := SafeInsert("id", s.id, d0);
    var d2 := SafeInsert("name", s.name, d1);
    var d3 := SafeInsert("from", s.fro, d2);
    var d4 := SafeInsert("to", s.to, d3);
    var d5 := SafeInsert("join", JoinJson(s.join), d4);
    var d6 := SafeInsert("relation", s.relType, d5);
    SafeInsert("bidirectional", s.bidirectional, d6)
  }

  /** What `construct` stores under each key; every other key is absent. */
  lemma ConstructRelationshipGet(s: RelState, j: string)
    ensures Get(ConstructRelationship(s), j) ==
      if j == "bidirectional" then Some(Kept(s.bidirectional))
      else if j == "relation" then Some(Kept(s.relType))
      else if j == "join" then Some(Kept(JoinJson(s.join)))
      else if j == "to" then Some(Kept(s.to))
      else if j == "from" then Some(Kept(s.fro))
      else if j == "name" then Some(Kept(s.name))
      else if j == "id" then Some(Kept(s.id))
      else None
  {
    var d0: Dict<Json> := [];
    var d1 := SafeInsert("id", s.id, d0);
    var d2 := SafeInsert("name", s.name, d1);
    var d3 := SafeInsert("from", s.fro, d2);
    var d4 := SafeInsert("to", s.to, d3);
    var d5 := SafeInsert("join", JoinJson(s.join), d4);
    var d6 := SafeInsert("relation", s.relType, d5);
    SafeInsertGet("id", s.id, d0, j);
    SafeInsertGet("name", s.name, d1, j);
    SafeInsertGet("from", s.fro, d2, j);
    SafeInsertGet("to", s.to, d3, j);
    SafeInsertGet("join", JoinJson(s.join), d4, j);
    SafeInsertGet("relation", s.relType, d5, j);
    SafeInsertGet("bidirectional", s.bidirectional, d6, j);
  }

  /**
   * Parsing what `construct` wrote gives a declared relationship (the
   * output has no `derived` key) whose fields are what `safe_insert` kept;
   * an empty join list comes back as None, and no `fromName`/`toName`.
   */
  lemma RelationshipRoundTrip(u: RelState, s: RelState)
    ensures var t := ParseRelationship(u, ConstructRelationship(s));
      t.name == Kept(s.name) && t.fro == Kept(s.fro) && t.to == Kept(s.to) &&
      t.join == (if s.join == Some([]) then None else s.join) &&
      t.relType == Kept(s.relType) && t.bidirectional == Kept(s.bidirectional) &&
      t.relList == u.relList && t.fromName == JNull && t.toName == JNull
  {
    var d := ConstructRelationship(s);
    ConstructRelationshipFields(s);
    assert !Truthy(Field(d, "derived"));
    JoinListRoundTrip(s.join, d);
  }

  /** A join list stored through `safe_insert` comes back, except an empty one, which comes back as None. */
  lemma JoinListRoundTrip(join: Option<seq<Json>>, d: Dict<Json>)
    requires Field(d, "join") == Kept(JoinJson(join))
    ensures SafeExtractList("join", d) == if join == Some([]) then None else join
  {
  }

  lemma ConstructRelationshipFields(s: RelState)
    ensures var d := ConstructRelationship(s);
      Field(d, "derived") == JNull && Field(d, "name") == Kept(s.name) && Field(d, "from") == Kept(s.fro) &&
      Field(d, "to") == Kept(s.to) && Field(d, "join") == Kept(JoinJson(s.join)) &&
      GetOr(d, "relation", JStr("m2m")) == Kept(s.relType) &&
      GetOr(d, "bidirectional", JBool(true)) == Kept(s.bidirectional) &&
      Field(d, "fromName") == JNull && Field(d, "toName") == JNull
  {
    ConstructRelationshipGet(s, "derived");
    ConstructRelationshipGet(s, "name");
    ConstructRelationshipGet(s, "from");
    ConstructRelationshipGet(s, "to");
    ConstructRelationshipGet(s, "join");
    ConstructRelationshipGet(s, "relation");
    ConstructRelationshipGet(s, "bidirectional");
    ConstructRelationshipGet(s, "fromName");
    ConstructRelationshipGet(s, "toName");
  }

  /** The messages `is_valid` records. */
  function RelErrors(s: RelState): set<string>
  {
    (if s.name == JNull then {"Ring Relatoinhips 'name' is missing."} else {}) +
    (if s.fro == JNull then {"Ring relationship: 'from' is missing."} else {}) +
    (if s.to == JNull then {"Ring relationship: 'to' is missing."} else {}) +
    (if s.join == Some([]) then {"Ring relationship has no joins."} else {})
  }

  /** No message is recorded exactly when name and ends are present and the join list is not `[]`. */
  lemma RelErrorsEmpty(s: RelState)
    ensures RelErrors(s) == {} <==> s.name != JNull && s.fro != JNull && s.to != JNull && s.join != Some([])
  {
    if s.name == JNull { assert "Ring Relatoinhips 'name' is missing." in RelErrors(s); }
    if s.fro == JNull { assert "Ring relationship: 'from' is missing." in RelErrors(s); }
    if s.to == JNull { assert "Ring relationship: 'to' is missing." in RelErrors(s); }
    if s.join == Some([]) { assert "Ring relationship has no joins." in RelErrors(s); }
  }

  /**
   * A parsed relationship is never reported for having no joins: a derived
   * one has None, and `safe_extract_list` never gives an empty list.
   */
  lemma ParsedHasJoinsOrNone(s: RelState, config: Dict<Json>)
    ensures "Ring relationship has no joins." !in RelErrors(ParseRelationship(s, config))
  {
    var t := ParseRelationship(s, config);
    assert t.join != Some([]);
  }

  /** A derived configuration clears the joins and leaves type and direction as they were. */
  lemma DerivedParse(s: RelState, config: Dict<Json>)
    requires Truthy(Field(config, "derived"))
    ensures var t := ParseRelationship(s, config);
      t.join == None && t.relType == s.relType && t.bidirectional == s.bidirectional &&
      t.relList == Field(config, "relationshipList")
  {
  }

  /** A declared relationship without `relation` and `bidirectional` keys is many-to-many and bidirectional. */
  lemma DeclaredDefaults(s: RelState, config: Dict<Json>)
    requires !Truthy(Field(config, "derived")) && !HasKey(config, "relation") && !HasKey(config, "bidirectional")
    ensures var t := ParseRelationship(s, config);
      t.relType == JStr("m2m") && t.bidirectional == JBool(true) && t.join == SafeExtractList("join", config)
  {
  }

  /** With string names, the id is the plain concatenation of from, name, to and the joins' repr. */
  lemma IdOfStrings(s: RelState, config: Dict<Json>)
    requires Field(config, "from").JStr? && Field(config, "name").JStr? && Field(config, "to").JStr?
    ensures var t := ParseRelationship(s, config);
      t.id == JStr(Field(config, "from").s + Field(config, "name").s + Field(config, "to").s +
        PyStr(JoinJson(t.join)))
  {
  }

  class RingRelationship {
    var id: Json
    var name: Json
    var fro: Json
    var to: Json
    var join: Option<seq<Json>>
    var relType: Json
    var bidirectional: Json
    var relList: Json
    var fromName: Json
    var toName: Json
    var errorSet: set<string>

    function Snap(): RelState
      reads this
    {
      RelState(id, name, fro, to, join, relType, bidirectional, relList, fromName, toName)
    }

    constructor()
      ensures Snap() == NewRelationship && errorSet == {}
    {
      id, name, fro, to := JNull, JNull, JNull, JNull;
      join := Some([]);
      relType := JStr("m2m");
      bidirectional := JBool(true);
      relList := JList([]);
      fromName, toName := JNull, JNull;
      errorSet := {};
    }

    /** `parse(relationship_config)`: the fields become what `ParseRelationship` gives. */
    method Parse(config: Dict<Json>)
      modifies this
      ensures Snap() == ParseRelationship(old(Snap()), config) && errorSet == old(errorSet)
    {
      SetFields(ParseRelationship(Snap(), config));
    }

    method SetFields(t: RelState)
      modifies this`id, this`name, this`fro, this`to, this`join, this`relType, this`bidirectional, this`relList,
        this`fromName, this`toName
      ensures Snap() == t
    {
      id, name, fro, to, join := t.id, t.name, t.fro, t.to, t.join;
      relType, bidirectional, relList, fromName, toName := t.relType, t.bidirectional, t.relList, t.fromName, t.toName;
    }

    /** `construct()`. */
    method Construct() returns (d: Dict<Json>)
      ensures d == ConstructRelationship(Snap())
    {
      d := [];
      d := SafeInsert("id", id, d);
      d := SafeInsert("name", name, d);
      d := SafeInsert("from", fro, d);
      d := SafeInsert("to", to, d);
      d := SafeInsert("join", JoinJson(join), d);
      d := SafeInsert("relation", relType, d);
      d := SafeInsert("bidirectional", bidirectional, d);
    }

    /** `is_valid()`: the messages go into the persistent error set. */
    method IsValid() returns (ok: bool, errors: set<string>)
      modifies this`errorSet
      ensures errorSet == old(errorSet) + RelErrors(Snap())
      ensures errors == errorSet && (ok <==> errorSet == {})
    {
      var found: set<string> := {};
      if name == JNull {
        found := found + {"Ring Relatoinhips 'name' is missing."};
      }
      if fro == JNull {
        found := found + {"Ring relationship: 'from' is missing."};
      }
      if to == JNull {
        found := found + {"Ring relationship: 'to' is missing."};
      }
      if join == Some([]) {
        found := found + {"Ring relationship has no joins."};
      }
      errorSet := errorSet + found;
      ok := errorSet == {};
      errors := errorSet;
    }
  }
}
