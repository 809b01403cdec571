/**
 * `core/RingObjects/RingDataSource.py`: the data source of a ring, with its
 * type, connection string, tables and joins. Opening the connection is not
 * part of this model.
 */
module RingDataSources {

  import opened Wrappers
  import opened Text
  import opened Dicts
  import opened Json
  import opened RingObject
  import opened RingJoins

  /** The fields of a `RingDataSource`; its joins are kept as the values of the `RingJoin` objects it creates. */
  datatype SourceState = SourceState(sourceType: Json, connectionString: Json, tables: Json, joins: seq<JoinState>)

  /** A new data source: an SQLite database with no joins. */
  const NewSource: SourceState := SourceState(JStr("sqlite"), JNull, JNull, [])

  /** `os.path.join(a, b)` on POSIX: an absolute `b` replaces `a`; otherwise one separator between them. */
  function PathJoin(a: string, b: string): (r: string)
    ensures StartsWith(b, "/") ==> r == b
    ensures !StartsWith(b, "/") ==> EndsWith(r, b)
  {
    if StartsWith(b, "/") then b
    else if a == [] || EndsWith(a, "/") then a + b
    else a + "/" + b
  }

  /**
   * The connection string `parse` stores: for an SQLite or CSV source the
   * configured string under the flat-file directory `flatFileLoc`
   * (`os.path.join` raises for a value that is not a string); for any other
   * type the configured value as it is.
   */
  function ConnectionOf(sourceType: Json, config: Dict<Json>, flatFileLoc: string): (r: Result<Json>)
    ensures sourceType != JStr("sqlite") && sourceType != JStr("csv") ==> r == Ok(Field(config, "connectionString"))
  {
    var cs := Field(config, "connectionString");
    if sourceType == JStr("sqlite") || sourceType == JStr("csv") then
      if cs.JStr? then Ok(JStr(PathJoin(flatFileLoc, cs.s)))
      else Err(TypeError("expected str, bytes or os.PathLike object"))
    else Ok(cs)
  }

  /** The SQLite and CSV connection strings lie under the flat-file directory, unless configured absolute. */
  lemma FlatFileConnection(sourceType: Json, config: Dict<Json>, flatFileLoc: string)
    requires sourceType == JStr("sqlite") || sourceType == JStr("csv")
    ensures ConnectionOf(sourceType, config, flatFileLoc).Ok? <==> Field(config, "connectionString").JStr?
    ensures var cs := Field(config, "connectionString");
      cs.JStr? && !StartsWith(cs.s, "/") && flatFileLoc == "/" ==> ConnectionOf(sourceType, config, flatFileLoc) == Ok(JStr("/" + cs.s))
  {
  }

  /**
   * The loop of `parse_joins` from the given joins over the remaining
   * configured entries: one `RingJoin` per entry, parsed and appended; an
   * entry that is not a dictionary raises and stops the loop.
   */
  function ParseJoinItems(parse: Dict<Json> -> JoinState, joins: seq<JoinState>, items: seq<Json>):
    (seq<JoinState>, Option<Error>)
    decreases |items|
  {
    if items == [] then (joins, None)
    else if !items[0].JObj? then (joins, Some(AttributeError("object has no attribute 'get'")))
    else ParseJoinItems(parse, joins + [parse(items[0].fields)], items[1..])
  }

  /**
   * The loop raises exactly when some entry is not a dictionary; otherwise
   * it appends one parsed join per entry, in order, after the joins there
   * were.
   */
  lemma {:induction false} ParseJoinItemsAppends(parse: Dict<Json> -> JoinState, joins: seq<JoinState>,
    items: seq<Json>)
    decreases |items|
    ensures ParseJoinItems(parse, joins, items).1.None? <==> forall k :: 0 <= k < |items| ==> items[k].JObj?
    ensures var r := ParseJoinItems(parse, joins, items).0;
      ParseJoinItems(parse, joins, items).1.None? ==>
        |r| == |joins| + |items| && r[..|joins|] == joins &&
        forall k :: 0 <= k < |items| ==> r[|joins| + k] == parse(items[k].fields)
  {
    if items != [] && items[0].JObj? {
      var joins' := joins + [parse(items[0].fields)];
      ParseJoinItemsAppends(parse, joins', items[1..]);
      assert forall k :: 1 <= k < |items| ==> items[k] == items[1..][k - 1];
      var r := ParseJoinItems(parse, joins, items).0;
      if ParseJoinItems(parse, joins, items).1.None? {
        assert r[..|joins|] == r[..|joins'|][..|joins|];
        forall k | 0 <= k < |items| ensures r[|joins| + k] == parse(items[k].fields) {
          if k > 0 {
            assert r[|joins'| + (k - 1)] == parse(items[1..][k - 1].fields);
          } else {
            assert r[..|joins'|][|joins|] == joins'[|joins|];
          }
        }
      }
    }
  }

  /** `parse_joins(source_config)`: nothing without a `joins` key; a value that is not iterable raises. */
  function ParseJoinsOf(s: SourceState, config: Dict<Json>): (SourceState, Option<Error>)
  {
    if !HasKey(config, "joins") then (s, None)
    else
      match Iterate(Field(config, "joins"))
      case Err(e) => (s, Some(e))
      case Ok(items) =>
        var r := ParseJoinItems(ParseJoin, s.joins, items);
        (s.(joins := r.0), r.1)
  }

  /**
   * `parse(source_config)`, with the flat-file directory that the Python
   * code reads from the environment as a parameter: the new state and the
   * exception raised, if any (the type is set before the connection
   * string can raise).
   */
  function ParseSource(s: SourceState, config: Dict<Json>, flatFileLoc: string): (SourceState, Option<Error>)
  {
    var t := s.(sourceType := Field(config, "type"));
    match ConnectionOf(t.sourceType, config, flatFileLoc)
    case Err(e) => (t, Some(e))
    case Ok(cs) => ParseJoinsOf(t.(connectionString := cs, tables := Field(config, "tables")), config)
  }

  /** A new data source parsed from a configuration with a list of join dictionaries has one join per entry, in order. */
  lemma ParsedJoins(config: Dict<Json>, flatFileLoc: string)
    requires ConnectionOf(Field(config, "type"), config, flatFileLoc).Ok?
    requires Field(config, "joins").JList? && forall k :: 0 <= k < |Field(config, "joins").items| ==>
      Field(config, "joins").items[k].JObj?
    ensures var r := ParseSource(NewSource, config, flatFileLoc);
      var items := Field(config, "joins").items;
      r.1.None? && |r.0.joins| == |items| && forall k :: 0 <= k < |items| ==> r.0.joins[k] == ParseJoin(items[k].fields)
  {
    ParseJoinItemsAppends(ParseJoin, [], Field(config, "joins").items);
  }

  /** The configurations `construct` writes for the joins. */
  function ConstructJoins(joins: seq<JoinState>): (r: seq<Json>)
    ensures |r| == |joins| && forall k :: 0 <= k < |joins| ==> r[k] == JObj(ConstructJoin(joins[k]))
  {
    seq(|joins|, k requires 0 <= k < |joins| => JObj(ConstructJoin(joins[k])))
  }

  /** `construct()`: type, connection string, tables and the joins' constructions, through `safe_insert`. */
  function ConstructSource(s: SourceState): Dict<Json>
  {
    var d0: Dict<Json> := [];
    var d1 := SafeInsert("type", s.sourceType, d0);
    var d2 := SafeInsert("connectionString", s.connectionString, d1);
    var d3 := SafeInsert("tables", s.tables, d2);
    SafeInsert("joins", JList(ConstructJoins(s.joins)), d3)
  }

  /** What `construct` stores under each key; every other key is absent. */
  lemma ConstructSourceGet(s: SourceState, j: string)
    ensures Get(ConstructSource(s), j) ==
      if j == "joins" then Some(Kept(JList(ConstructJoins(s.joins))))
      else if j == "tables" then Some(Kept(s.tables))
      else if j == "connectionString" then Some(Kept(s.connectionString))
      else if j == "type" then Some(Kept(s.sourceType))
      else None
  {
    var d0: Dict<Json> := [];
    var d1 := SafeInsert("type", s.sourceType, d0);
    var d2 := SafeInsert("connectionString", s.connectionString, d1);
    var d3 := SafeInsert("tables", s.tables, d2);
    SafeInsertGet("type", s.sourceType, d0, j);
    SafeInsertGet("connectionString", s.connectionString, d1, j);
    SafeInsertGet("tables", s.tables, d2, j);
    SafeInsertGet("joins", JList(ConstructJoins(s.joins)), d3, j);
  }

  /**
   * Parsing the joins of what `construct` wrote gives back each join as it
   * survives its own round trip. With no joins, `safe_insert` stored None
   * under `joins`, and parsing it raises.
   */
  lemma SourceJoinsRoundTrip(u: SourceState, s: SourceState)
    ensures var r := ParseJoinsOf(u, ConstructSource(s));
      (s.joins == [] ==> r.1.Some? && r.1.value.TypeError?) &&
      (s.joins != [] ==> (r.1.None? && |r.0.joins| == |u.joins| + |s.joins| && r.0.joins[..|u.joins|] == u.joins &&
        forall k :: 0 <= k < |s.joins| ==> r.0.joins[|u.joins| + k] == ParseJoin(ConstructJoin(s.joins[k]))))
  {
    var d := ConstructSource(s);
    ConstructedJoinsField(s);
    if s.joins != [] {
      var items := ConstructJoins(s.joins);
      ListedJoinsParse(u, d, items);
      forall k | 0 <= k < |s.joins| ensures items[k].fields == ConstructJoin(s.joins[k]) {
      }
    }
  }

  /** Parsing a configuration whose `joins` is a list of dictionaries appends one join per entry. */
  lemma ListedJoinsParse(u: SourceState, d: Dict<Json>, items: seq<Json>)
    requires HasKey(d, "joins") && Field(d, "joins") == JList(items)
    requires forall k :: 0 <= k < |items| ==> items[k].JObj?
    ensures var r := ParseJoinsOf(u, d);
      r.1.None? && |r.0.joins| == |u.joins| + |items| && r.0.joins[..|u.joins|] == u.joins &&
      forall k :: 0 <= k < |items| ==> r.0.joins[|u.joins| + k] == ParseJoin(items[k].fields)
  {
    ParseJoinItemsAppends(ParseJoin, u.joins, items);
  }

  /** `construct` always writes `joins`: the joins' configurations, or None when there are none. */
  lemma ConstructedJoinsField(s: SourceState)
    ensures HasKey(ConstructSource(s), "joins")
    ensures Field(ConstructSource(s), "joins") == if s.joins == [] then JNull else JList(ConstructJoins(s.joins))
  {
    var d := ConstructSource(s);
    var v := JList(ConstructJoins(s.joins));
    ConstructSourceGet(s, "joins");
    assert Get(d, "joins") == Some(Kept(v));
    if s.joins == [] {
      assert ConstructJoins(s.joins) == [];
      assert !Truthy(v) && Kept(v) == JNull;
    } else {
      assert Truthy(v) && Kept(v) == v;
    }
  }

  /** The messages `is_valid` records for missing fields of the source. */
  function FieldMessages(s: SourceState): set<string>
  {
    (if s.sourceType == JNull then {"Ring Source 'type' is missing."} else {}) +
    (if s.connectionString == JNull then {"Ring Source 'connection string' is missing."} else {}) +
    (if s.tables == JNull then {"Ring Source 'tables' is missing."} else {})
  }

  const WrongKeyType := "Ring source table's 'primaryKey' is the wrong type. It should be a dict mapping the column name to the column type."

  /**
   * The checks `is_valid` makes of one table, as written: the messages it
   * records and the exception it raises. The primary key is looked up even
   * when its absence was just recorded, which raises a KeyError; a table
   * that is not a dictionary raises as well (a string or list at the
   * lookup, anything else at the first `in`).
   */
  function TableCheckAsWritten(table: Json): (set<string>, Option<Error>)
  {
    match Contains(table, "name")
    case Err(e) => ({}, Some(e))
    case Ok(hasName) =>
      var m1: set<string> := if hasName then {} else {"Ring Source table's 'name' is missing."};
      match Contains(table, "primaryKey")
      case Err(e) => (m1, Some(e))
      case Ok(hasKey) =>
        var m2 := m1 + (if hasKey then {} else {"Ring Source table's 'primaryKey' is missing."});
        match Subscript(table, "primaryKey")
        case Err(e) => (m2, Some(e))
        case Ok(pk) => (m2 + (if pk.JObj? then {} else {WrongKeyType}), None)
  }

  /** A table's checks raise exactly when it is not a dictionary or has no primary key. */
  lemma TableCheckRaises(table: Json)
    ensures TableCheckAsWritten(table).1.None? <==> table.JObj? && HasKey(table.fields, "primaryKey")
    ensures table.JObj? && !HasKey(table.fields, "primaryKey") ==>
      TableCheckAsWritten(table) == (TableCheckAsWritten(table).0, Some(KeyError("primaryKey"))) &&
      "Ring Source table's 'primaryKey' is missing." in TableCheckAsWritten(table).0
  {
  }

  /** A table without a primary key: `is_valid` records the message and then raises a KeyError. */
  lemma MissingPrimaryKeyRaises()
    ensures TableCheckAsWritten(JObj([("name", JStr("cases"))])) ==
      ({"Ring Source table's 'primaryKey' is missing."}, Some(KeyError("primaryKey")))
  {
    var table: Dict<Json> := [("name", JStr("cases"))];
    assert table[0].0 == "name";
    assert HasKey(table, "name");
    assert !HasKey(table, "primaryKey");
    assert Contains(JObj(table), "name") == Ok(true);
    assert Contains(JObj(table), "primaryKey") == Ok(false);
    assert Subscript(JObj(table), "primaryKey") == Err(KeyError("primaryKey"));
    var m1: set<string> := {};
    var m2 := m1 + {"Ring Source table's 'primaryKey' is missing."};
    assert TableCheckAsWritten(JObj(table)) == (m2, Some(KeyError("primaryKey")));
    assert m2 == {"Ring Source table's 'primaryKey' is missing."};
  }

  /** The table checks as evidently intended: the type of the primary key is checked only when there is one. */
  function TableCheckIntended(table: Dict<Json>): set<string>
  {
    (if HasKey(table, "name") then {} else {"Ring Source table's 'name' is missing."}) +
    match Get(table, "primaryKey")
    case None => {"Ring Source table's 'primaryKey' is missing."}
    case Some(pk) => if pk.JObj? then {} else {WrongKeyType}
  }

  /**
   * The intended checks never raise, and a table passes them exactly when
   * it has a name and a dictionary as primary key; on a table with a
   * primary key they agree with the checks as written.
   */
  lemma TableCheckIntendedCorrect(table: Dict<Json>)
    ensures TableCheckIntended(table) == {} <==>
      HasKey(table, "name") && Get(table, "primaryKey").Some? && Get(table, "primaryKey").value.JObj?
    ensures HasKey(table, "primaryKey") ==> TableCheckAsWritten(JObj(table)) == (TableCheckIntended(table), None)
  {
    if HasKey(table, "primaryKey") {
      IntendedAgrees(table);
    }
    if !HasKey(table, "name") {
      assert "Ring Source table's 'name' is missing." in TableCheckIntended(table);
    }
    if Get(table, "primaryKey").None? {
      assert "Ring Source table's 'primaryKey' is missing." in TableCheckIntended(table);
    } else if !Get(table, "primaryKey").value.JObj? {
      assert WrongKeyType in TableCheckIntended(table);
    }
  }

  lemma IntendedAgrees(table: Dict<Json>)
    requires HasKey(table, "primaryKey")
    ensures TableCheckAsWritten(JObj(table)) == (TableCheckIntended(table), None)
  {
    var pk := Get(table, "primaryKey").value;
    assert Contains(JObj(table), "name") == Ok(HasKey(table, "name"));
    assert Contains(JObj(table), "primaryKey") == Ok(true);
    assert Subscript(JObj(table), "primaryKey") == Ok(pk);
    var m1: set<string> := if HasKey(table, "name") then {} else {"Ring Source table's 'name' is missing."};
    var m2 := m1 + {};
    assert TableCheckAsWritten(JObj(table)) == (m2 + (if pk.JObj? then {} else {WrongKeyType}), None);
    assert m2 == m1;
  }

  /**
   * The checks of one table with the missing primary key only recorded:
   * a dictionary gets the intended checks; any other value still raises
   * where the code as written raises.
   */
  function TableCheck(table: Json): (set<string>, Option<Error>)
  {
    if table.JObj? then (TableCheckIntended(table.fields), None) else TableCheckAsWritten(table)
  }

  /**
   * The corrected checks record the same messages as the checks as written,
   * and raise differently exactly for a dictionary without a primary key,
   * where only the code as written raises.
   */
  lemma TableCheckAsWrittenDiffers(table: Json)
    ensures TableCheck(table).0 == TableCheckAsWritten(table).0
    ensures TableCheck(table).1 != TableCheckAsWritten(table).1 <==>
      table.JObj? && !HasKey(table.fields, "primaryKey")
    ensures table.JObj? ==> TableCheck(table).1.None?
  {
    if table.JObj? {
      var t := table.fields;
      if HasKey(t, "primaryKey") {
        IntendedAgrees(t);
      } else {
        assert Contains(table, "name") == Ok(HasKey(t, "name"));
        assert Contains(table, "primaryKey") == Ok(false);
        assert Subscript(table, "primaryKey") == Err(KeyError("primaryKey"));
      }
    }
  }

  /** The loop of `is_valid` over the remaining tables: the messages recorded and the exception that stops it. */
  function TablesCheck(check: Json -> (set<string>, Option<Error>), tables: seq<Json>): (set<string>, Option<Error>)
    decreases |tables|
  {
    if tables == [] then ({}, None)
    else
      var r := check(tables[0]);
      if r.1.Some? then r
      else
        var rest := TablesCheck(check, tables[1..]);
        (r.0 + rest.0, rest.1)
  }

  /** Without an exception, the tables' messages are those of each table. */
  lemma {:induction false} TablesCheckMessages(check: Json -> (set<string>, Option<Error>), tables: seq<Json>)
    decreases |tables|
    ensures TablesCheck(check, tables).1.None? <==> forall k :: 0 <= k < |tables| ==> check(tables[k]).1.None?
    ensures TablesCheck(check, tables).1.None? ==>
      forall m :: m in TablesCheck(check, tables).0 <==> exists k :: 0 <= k < |tables| && m in check(tables[k]).0
  {
    if tables != [] {
      TablesCheckMessages(check, tables[1..]);
      assert forall k :: 1 <= k < |tables| ==> tables[k] == tables[1..][k - 1];
      assert forall k :: 0 <= k < |tables[1..]| ==> tables[1..][k] == tables[k + 1];
    }
  }

  /** `reduce(and, map(is_valid()[0], joins))` on joins whose error sets hold only their own messages. */
  function JoinsValid(joins: seq<JoinState>): (r: bool)
    ensures r <==> forall k :: 0 <= k < |joins| ==> JoinErrors(joins[k]) == {}
  {
    if joins == [] then true
    else
      assert forall k :: 1 <= k < |joins| ==> joins[k] == joins[1..][k - 1];
      JoinErrors(joins[0]) == {} && JoinsValid(joins[1..])
  }

  /**
   * The join check of `is_valid`: with joins, a message unless type,
   * connection string and tables are all truthy and every join is valid.
   */
  function JoinMessages(s: SourceState): set<string>
  {
    if s.joins != [] && !(Truthy(s.sourceType) && Truthy(s.connectionString) && Truthy(s.tables) && JoinsValid(s.joins))
    then {"There is an issue with the validity of the joins."}
    else {}
  }

  /**
   * `is_valid()` on a snapshot: the messages it adds to the error set and
   * the exception it raises, if any. Tables that are not iterable raise
   * after the field messages; so does the first table that is not a
   * dictionary, after its own. A table without a primary key is recorded
   * and the loop goes on (`TableCheck`; the code as written raises there,
   * `TableCheckAsWritten`).
   */
  function SourceCheck(s: SourceState): (set<string>, Option<Error>)
  {
    match Iterate(s.tables)
    case Err(e) => (FieldMessages(s), Some(e))
    case Ok(tables) =>
      var t := TablesCheck(TableCheck, tables);
      if t.1.Some? then (FieldMessages(s) + t.0, t.1)
      else (FieldMessages(s) + t.0 + JoinMessages(s), None)
  }

  /** A source without tables always raises: None is not iterable. */
  lemma NoTablesRaises(s: SourceState)
    requires s.tables == JNull
    ensures SourceCheck(s).1.Some? && SourceCheck(s).1.value.TypeError?
    ensures "Ring Source 'tables' is missing." in SourceCheck(s).0
  {
  }

  /**
   * With a list of tables that are all dictionaries, `is_valid` does not
   * raise, and a fresh source is valid exactly when type and connection
   * string are present, every table has a name and a dictionary as primary
   * key, and (when there are joins) the three fields are truthy and every
   * join is valid.
   */
  lemma SourceValidIff(s: SourceState)
    requires s.tables.JList?
    requires forall k :: 0 <= k < |s.tables.items| ==> s.tables.items[k].JObj?
    ensures SourceCheck(s).1.None?
    ensures SourceCheck(s).0 == {} <==>
      s.sourceType != JNull && s.connectionString != JNull &&
      (forall k :: 0 <= k < |s.tables.items| ==> TableCheckIntended(s.tables.items[k].fields) == {}) &&
      (s.joins != [] ==> (Truthy(s.sourceType) && Truthy(s.connectionString) && Truthy(s.tables) &&
        forall k :: 0 <= k < |s.joins| ==> JoinErrors(s.joins[k]) == {}))
  {
    var t := TablesCheck(TableCheck, s.tables.items);
    TablesOfObjects(s.tables.items);
    assert SourceCheck(s) == (FieldMessages(s) + t.0 + JoinMessages(s), None);
    UnionEmpty(FieldMessages(s), t.0, JoinMessages(s));
    if s.sourceType == JNull { assert "Ring Source 'type' is missing." in FieldMessages(s); }
    if s.connectionString == JNull { assert "Ring Source 'connection string' is missing." in FieldMessages(s); }
  }

  /** Tables that are all dictionaries never raise, and record nothing exactly when each passes the intended check. */
  lemma TablesOfObjects(tables: seq<Json>)
    requires forall k :: 0 <= k < |tables| ==> tables[k].JObj?
    ensures TablesCheck(TableCheck, tables).1.None?
    ensures TablesCheck(TableCheck, tables).0 == {} <==>
      forall k :: 0 <= k < |tables| ==> TableCheckIntended(tables[k].fields) == {}
  {
    forall k | 0 <= k < |tables| ensures TableCheck(tables[k]) == (TableCheckIntended(tables[k].fields), None) {
    }
    TablesCheckMessages(TableCheck, tables);
    var t := TablesCheck(TableCheck, tables);
    forall k | 0 <= k < |tables| && TableCheckIntended(tables[k].fields) != {}
      ensures t.0 != {}
    {
      var m :| m in TableCheckIntended(tables[k].fields);
      assert m in t.0;
    }
  }

  /** A union of three message sets is empty exactly when each of them is. */
  lemma UnionEmpty(a: set<string>, b: set<string>, c: set<string>)
    ensures a + b + c == {} <==> a == {} && b == {} && c == {}
  {
  }

  /** The loop of `is_valid` over the tables: the messages it records, and the exception that stops it. */
  method CheckTables(tables: seq<Json>) returns (found: set<string>, raised: Option<Error>)
    ensures (found, raised) == TablesCheck(TableCheck, tables)
  {
    found := {};
    var i := 0;
    while i < |tables|
      invariant 0 <= i <= |tables|
      invariant found + TablesCheck(TableCheck, tables[i..]).0 == TablesCheck(TableCheck, tables).0
      invariant TablesCheck(TableCheck, tables[i..]).1 == TablesCheck(TableCheck, tables).1
      decreases |tables| - i
    {
      assert tables[i..][1..] == tables[i + 1..];
      var check := TableCheck(tables[i]);
      found := found + check.0;
      if check.1.Some? {
        return found, check.1;
      }
      i := i + 1;
    }
    assert tables[i..] == [];
    return found, None;
  }

  class RingDataSource {
    var sourceType: Json
    var connectionString: Json
    var tables: Json
    var joins: seq<JoinState>
    var errorSet: set<string>

    function Snap(): SourceState
      reads this
    {
      SourceState(sourceType, connectionString, tables, joins)
    }

    constructor()
      ensures Snap() == NewSource && errorSet == {}
    {
      sourceType := JStr("sqlite");
      connectionString, tables := JNull, JNull;
      joins := [];
      errorSet := {};
    }

    /** `parse(source_config)`, with `FLAT_FILE_LOC` given as `flatFileLoc`. */
    method Parse(config: Dict<Json>, flatFileLoc: string) returns (raised: Option<Error>)
      modifies this
      ensures (Snap(), raised) == ParseSource(old(Snap()), config, flatFileLoc) && errorSet == old(errorSet)
    {
      sourceType := Field(config, "type");
      var cs := ConnectionOf(sourceType, config, flatFileLoc);
      if cs.Err? {
        return Some(cs.error);
      }
      connectionString := cs.value;
      tables := Field(config, "tables");
      raised := ParseJoins(config);
    }

    /** `parse_joins(source_config)`: one new `RingJoin` per configured entry, parsed and appended. */
    method ParseJoins(config: Dict<Json>) returns (raised: Option<Error>)
      modifies this`joins
      ensures (Snap(), raised) == ParseJoinsOf(old(Snap()), config)
    {
      if !HasKey(config, "joins") {
        return None;
      }
      var entries := Iterate(Field(config, "joins"));
      if entries.Err? {
        return Some(entries.error);
      }
      var items := entries.value;
      ghost var goal := ParseJoinItems(ParseJoin, joins, items);
      var i := 0;
      while i < |items|
        invariant 0 <= i <= |items|
        invariant ParseJoinItems(ParseJoin, joins, items[i..]) == goal
        decreases |items| - i
      {
        assert items[i..][1..] == items[i + 1..];
        if !items[i].JObj? {
          return Some(AttributeError("object has no attribute 'get'"));
        }
        var join := new RingJoin();
        join.Parse(items[i].fields);
        joins := joins + [join.Snap()];
        i := i + 1;
      }
      assert items[i..] == [];
      return None;
    }

    /** `construct()`. */
    method Construct() returns (d: Dict<Json>)
      ensures d == ConstructSource(Snap())
    {
      d := [];
      d := SafeInsert("type", sourceType, d);
      d := SafeInsert("connectionString", connectionString, d);
      d := SafeInsert("tables", tables, d);
      d := SafeInsert("joins", JList(ConstructJoins(joins)), d);
    }

    /**
     * `is_valid()`: the field messages, then a pass over the tables, then
     * the join check; on an exception the messages recorded so far stay.
     * Returns (valid, error set).
     */
    method IsValid() returns (r: Result<(bool, set<string>)>)
      modifies this`errorSet
      ensures errorSet == old(errorSet) + SourceCheck(Snap()).0
      ensures r == match SourceCheck(Snap()).1
        case Some(e) => Err(e)
        case None => Ok((errorSet == {}, errorSet))
    {
      errorSet := errorSet + FieldMessages(Snap());
      var entries := Iterate(tables);
      if entries.Err? {
        return Err(entries.error);
      }
      var found, raised := CheckTables(entries.value);
      errorSet := errorSet + found;
      if raised.Some? {
        return Err(raised.value);
      }
      errorSet := errorSet + JoinMessages(Snap());
      r := Ok((errorSet == {}, errorSet));
    }
  }
}
