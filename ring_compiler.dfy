/**
 * `core/RingCompiler.py`: the parts of building the ORM of a ring that are
 * not SQLAlchemy calls: resolving a type through the upper ontology, the
 * names of the columns derived from a date column, the relationship list
 * read from the joins of the data source and the pair of relationships
 * set up for each of its entries.
 */
module RingCompilers {

  import opened Wrappers
  import opened Dicts
  import opened Text
  import opened Json
  import opened ApiUtils
  import opened Chars
  import opened RingJoins

  // ---------------------------------------------------------------------------
  // resolve_base_type
  // ---------------------------------------------------------------------------

  /**
   * `UPPER_ONTOLOGY`: currency is a float. The currency converter it also
   * holds is a function, kept here as None.
   */
  const UpperOntology: Dict<Json> := [("currency", JObj([
    ("isa", JStr("float")),
    ("subtypes", JList([JStr("denomination")])),
    ("conversions", JObj([("denominations", JNull)]))]))]

  /** Whether `t` is a key of the ontology: only strings can be; a list or dictionary is unhashable. */
  function InOntology(ont: Dict<Json>, t: Json): (r: Result<bool>)
    ensures r.Ok? <==> !(t.JList? || t.JObj?)
    ensures r == Ok(true) <==> t.JStr? && HasKey(ont, t.s)
  {
    match t
    case JStr(s) => Ok(HasKey(ont, s))
    case JList(_) => Err(TypeError("unhashable type: 'list'"))
    case JObj(_) => Err(TypeError("unhashable type: 'dict'"))
    case _ => Ok(false)
  }

  lemma HasKeyInKeySet<V>(d: Dict<V>, k: string)
    requires HasKey(d, k)
    ensures k in KeySet(d)
  {
    var i :| 0 <= i < |d| && d[i].0 == k;
    assert d[i].0 in KeySet(d);
  }

  /**
   * `resolve_base_type(t)` with the types in `seen` already passed
   * through: a type in the ontology resolves as its `isa`; meeting a type
   * a second time is the unbounded recursion that Python stops with a
   * RecursionError.
   */
  function ResolveFrom(ont: Dict<Json>, t: Json, seen: set<string>): Result<Json>
    requires seen <= KeySet(ont)
    decreases |KeySet(ont) - seen|
  {
    var known :- InOntology(ont, t);
    if !known then Ok(t)
    else if t.s in seen then Err(RecursionError)
    else
      var next :- Subscript(Get(ont, t.s).value, "isa");
      HasKeyInKeySet(ont, t.s);
      assert KeySet(ont) - (seen + {t.s}) < KeySet(ont) - seen;
      ResolveFrom(ont, next, seen + {t.s})
  }

  /** `resolve_base_type`. */
  function ResolveBaseType(ont: Dict<Json>, t: Json): Result<Json>
  {
    ResolveFrom(ont, t, {})
  }

  /** What resolves is never a type of the ontology itself. */
  lemma {:induction false} ResolveFromIsBase(ont: Dict<Json>, t: Json, seen: set<string>)
    requires seen <= KeySet(ont)
    ensures var r := ResolveFrom(ont, t, seen);
      r.Ok? ==> InOntology(ont, r.value) == Ok(false)
    decreases |KeySet(ont) - seen|
  {
    var known := InOntology(ont, t);
    if known == Ok(true) && t.s !in seen {
      var next := Subscript(Get(ont, t.s).value, "isa");
      if next.Ok? {
        HasKeyInKeySet(ont, t.s);
        assert KeySet(ont) - (seen + {t.s}) < KeySet(ont) - seen;
        ResolveFromIsBase(ont, next.value, seen + {t.s});
      }
    }
  }

  /** A type outside the ontology is its own base type. */
  lemma ResolveOutside(ont: Dict<Json>, t: Json)
    requires InOntology(ont, t) == Ok(false)
    ensures ResolveBaseType(ont, t) == Ok(t)
  {
  }

  /** A successful resolution does not depend on which types were passed through before. */
  lemma {:induction false} ResolveFromSeen(ont: Dict<Json>, t: Json, seen: set<string>, fewer: set<string>)
    requires fewer <= seen <= KeySet(ont)
    requires ResolveFrom(ont, t, seen).Ok?
    ensures ResolveFrom(ont, t, fewer) == ResolveFrom(ont, t, seen)
    decreases |KeySet(ont) - seen|
  {
    if InOntology(ont, t) == Ok(true) {
      var next := Subscript(Get(ont, t.s).value, "isa");
      if next.Ok? {
        HasKeyInKeySet(ont, t.s);
        assert KeySet(ont) - (seen + {t.s}) < KeySet(ont) - seen;
        ResolveFromSeen(ont, next.value, seen + {t.s}, fewer + {t.s});
      }
    }
  }

  /** A type in the ontology has the base type of its `isa`. */
  lemma ResolveStep(ont: Dict<Json>, t: string)
    requires HasKey(ont, t) && Subscript(Get(ont, t).value, "isa").Ok?
    requires ResolveBaseType(ont, JStr(t)).Ok?
    ensures ResolveBaseType(ont, JStr(t)) == ResolveBaseType(ont, Subscript(Get(ont, t).value, "isa").value)
  {
    var next := Subscript(Get(ont, t).value, "isa").value;
    HasKeyInKeySet(ont, t);
    assert InOntology(ont, JStr(t)) == Ok(true);
    assert {} + {t} == {t};
    assert ResolveFrom(ont, JStr(t), {}) == ResolveFrom(ont, next, {t});
    ResolveFromSeen(ont, next, {t}, {});
  }

  /** Resolving a base type again changes nothing. */
  lemma ResolveIdempotent(ont: Dict<Json>, t: Json)
    requires ResolveBaseType(ont, t).Ok?
    ensures ResolveBaseType(ont, ResolveBaseType(ont, t).value) == ResolveBaseType(ont, t)
  {
    ResolveFromIsBase(ont, t, {});
  }

  /** Currency is a float in the built-in ontology, and any type that is not currency is left as it is. */
  lemma UpperOntologyBaseTypes(t: string)
    ensures ResolveBaseType(UpperOntology, JStr("currency")) == Ok(JStr("float"))
    ensures t != "currency" ==> ResolveBaseType(UpperOntology, JStr(t)) == Ok(JStr(t))
  {
    var entry := UpperOntology[0].1;
    assert Get(UpperOntology, "currency") == Some(entry);
    assert entry.fields[0].0 == "isa";
    assert Get(entry.fields, "isa") == Some(JStr("float"));
    assert Subscript(entry, "isa") == Ok(JStr("float"));
    assert KeySet(UpperOntology) == {"currency"};
    assert !HasKey(UpperOntology, "float");
    assert ResolveFrom(UpperOntology, JStr("float"), {"currency"}) == Ok(JStr("float"));
    if t != "currency" {
      assert !HasKey(UpperOntology, t);
    }
  }

  // ---------------------------------------------------------------------------
  // add_derived_datetime_columns_to_model_map: the column names
  // ---------------------------------------------------------------------------

  /** The entries of `ordered_fields`, from the coarsest. */
  datatype Granularity = Year | Month | Day | Hour | Minute | Second | Microsecond

  const OrderedFields: seq<Granularity> := [Year, Month, Day, Hour, Minute, Second, Microsecond]

  function FieldName(g: Granularity): string
  {
    match g
    case Year => "year"
    case Month => "month"
    case Day => "day"
    case Hour => "hour"
    case Minute => "minute"
    case Second => "second"
    case Microsecond => "microsecond"
  }

  /** `ordered_fields.index(g)`. */
  function Position(g: Granularity): (p: nat)
    ensures p < |OrderedFields| && OrderedFields[p] == g
  {
    match g
    case Year => 0
    case Month => 1
    case Day => 2
    case Hour => 3
    case Minute => 4
    case Second => 5
    case Microsecond => 6
  }

  /** `ordered_fields.index(j)`: a ValueError for anything that is not one of the seven names. */
  function ParseGranularity(j: Json): (r: Result<Granularity>)
    ensures r.Ok? ==> j == JStr(FieldName(r.value))
  {
    match j
    case JStr(s) =>
      if s == "year" then Ok(Year)
      else if s == "month" then Ok(Month)
      else if s == "day" then Ok(Day)
      else if s == "hour" then Ok(Hour)
      else if s == "minute" then Ok(Minute)
      else if s == "second" then Ok(Second)
      else if s == "microsecond" then Ok(Microsecond)
      else Err(ValueError("is not in list"))
    case _ => Err(ValueError("is not in list"))
  }

  /** The name of a field is recognised back as that field. */
  lemma ParseFieldName(g: Granularity)
    ensures ParseGranularity(JStr(FieldName(g))) == Ok(g)
  {
  }

  /** `ordered_fields[max_id:min_id + 1]`: empty when the maximum is finer than the minimum. */
  function RelevantFields(maxId: nat, minId: nat): (fs: seq<Granularity>)
    requires maxId < |OrderedFields| && minId < |OrderedFields|
    ensures |fs| == if maxId <= minId then minId - maxId + 1 else 0
    ensures forall k :: 0 <= k < |fs| ==> Position(fs[k]) == maxId + k
  {
    if maxId <= minId then OrderedFields[maxId..minId + 1] else []
  }

  /** The suffix of the column derived for one field: `:year`, otherwise `:only<field>`. */
  function GranularitySuffix(g: Granularity): string
  {
    if g != Year then ":only" + FieldName(g) else ":" + FieldName(g)
  }

  /** The combined columns added after the per-field ones: year/month/day and day of week, then year/month. */
  function CombinedSuffixes(maxId: nat, minId: nat): seq<string>
  {
    (if minId > 1 && maxId == 0 then [":day", ":dayofweek"] else [])
      + (if minId > 0 && maxId == 0 then [":month"] else [])
  }

  /**
   * The names of the columns `add_derived_datetime_columns_to_model_map`
   * adds for the column `col` between two granularities, in the order it
   * adds them.
   */
  function DatetimeNames(col: string, minG: Granularity, maxG: Granularity): seq<string>
  {
    FieldNames(col, RelevantFields(Position(maxG), Position(minG)))
      + SuffixedNames(col, CombinedSuffixes(Position(maxG), Position(minG)))
  }

  /** `col` with the suffix of each field. */
  function FieldNames(col: string, fs: seq<Granularity>): (r: seq<string>)
    ensures |r| == |fs| && forall k :: 0 <= k < |fs| ==> r[k] == col + GranularitySuffix(fs[k])
  {
    seq(|fs|, k requires 0 <= k < |fs| => col + GranularitySuffix(fs[k]))
  }

  /** `col` with each suffix. */
  function SuffixedNames(col: string, suffixes: seq<string>): (r: seq<string>)
    ensures |r| == |suffixes| && forall k :: 0 <= k < |suffixes| ==> r[k] == col + suffixes[k]
  {
    seq(|suffixes|, k requires 0 <= k < |suffixes| => col + suffixes[k])
  }

  /** The same, from the attribute's granularities as given: each must name a field. */
  function DerivedDatetimeNames(col: string, minField: Json, maxField: Json): (r: Result<seq<string>>)
    ensures r.Err? <==> ParseGranularity(minField).Err? || ParseGranularity(maxField).Err?
  {
    var minG :- ParseGranularity(minField);
    var maxG :- ParseGranularity(maxField);
    Ok(DatetimeNames(col, minG, maxG))
  }

  /** One more field adds one more name. */
  lemma FieldNamesStep(col: string, fs: seq<Granularity>, k: nat)
    requires k < |fs|
    ensures FieldNames(col, fs[..k + 1]) == FieldNames(col, fs[..k]) + [col + GranularitySuffix(fs[k])]
  {
    var a, b := FieldNames(col, fs[..k + 1]), FieldNames(col, fs[..k]) + [col + GranularitySuffix(fs[k])];
    assert |a| == |b|;
    forall j | 0 <= j < |a| ensures a[j] == b[j] {
      assert fs[..k + 1][j] == fs[j];
    }
  }

  /** The combined columns appended after the per-field names `front`. */
  lemma CombinedTail(col: string, front: seq<string>, mid: seq<string>, names: seq<string>, maxId: nat, minId: nat)
    requires mid == if minId > 1 && maxId == 0 then front + [col + ":day"] + [col + ":dayofweek"] else front
    requires names == if minId > 0 && maxId == 0 then mid + [col + ":month"] else mid
    ensures names == front + SuffixedNames(col, CombinedSuffixes(maxId, minId))
  {
    var tail := SuffixedNames(col, CombinedSuffixes(maxId, minId));
    assert |names| == |front| + |tail|;
    forall j | 0 <= j < |names| ensures names[j] == (front + tail)[j] {
    }
  }

  /** The loop over the relevant fields, then the combined columns. */
  method DatetimeColumns(col: string, minG: Granularity, maxG: Granularity) returns (names: seq<string>)
    ensures names == DatetimeNames(col, minG, maxG)
  {
    var minId, maxId := Position(minG), Position(maxG);
    var fields := RelevantFields(maxId, minId);
    names := [];
    for k := 0 to |fields|
      invariant names == FieldNames(col, fields[..k])
    {
      FieldNamesStep(col, fields, k);
      names := names + [col + GranularitySuffix(fields[k])];
    }
    assert fields[..|fields|] == fields;
    ghost var front := names;
    if minId > 1 && maxId == 0 {
      names := names + [col + ":day"];
      names := names + [col + ":dayofweek"];
    }
    ghost var mid := names;
    if minId > 0 && maxId == 0 {
      names := names + [col + ":month"];
    }
    CombinedTail(col, front, mid, names, maxId, minId);
  }

  /** `add_derived_datetime_columns_to_model_map`, for the column names. */
  method DerivedDatetimeColumns(col: string, minField: Json, maxField: Json) returns (r: Result<seq<string>>)
    ensures r == DerivedDatetimeNames(col, minField, maxField)
  {
    var minG := ParseGranularity(minField);
    if minG.Err? {
      return Err(minG.error);
    }
    var maxG := ParseGranularity(maxField);
    if maxG.Err? {
      return Err(maxG.error);
    }
    var names := DatetimeColumns(col, minG.value, maxG.value);
    r := Ok(names);
  }

  /**
   * One column per field from the maximum to the minimum granularity,
   * each named after its field, then the combined ones; every name starts
   * with the column's.
   */
  lemma DatetimeNamesMeaning(col: string, minG: Granularity, maxG: Granularity)
    ensures var r := DatetimeNames(col, minG, maxG);
      var minId, maxId := Position(minG), Position(maxG);
      var n := if maxId <= minId then minId - maxId + 1 else 0;
      && |r| == n + |CombinedSuffixes(maxId, minId)|
      && (forall k :: 0 <= k < n ==> r[k] == col + GranularitySuffix(OrderedFields[maxId + k]))
      && (forall k :: 0 <= k < |r| ==> StartsWith(r[k], col))
  {
    var r := DatetimeNames(col, minG, maxG);
    var fs := RelevantFields(Position(maxG), Position(minG));
    var combined := CombinedSuffixes(Position(maxG), Position(minG));
    forall k | 0 <= k < |r|
      ensures StartsWith(r[k], col)
    {
      var tail := if k < |fs| then GranularitySuffix(fs[k]) else combined[k - |fs|];
      assert r[k] == col + tail;
      assert (col + tail)[..|col|] == col;
    }
  }

  /** The combined columns: year/month/day and day of week only for a date down to the day, year/month from the year down. */
  lemma CombinedSuffixesCases(maxId: nat, minId: nat)
    ensures ":day" in CombinedSuffixes(maxId, minId) <==> minId > 1 && maxId == 0
    ensures ":dayofweek" in CombinedSuffixes(maxId, minId) <==> minId > 1 && maxId == 0
    ensures ":month" in CombinedSuffixes(maxId, minId) <==> minId > 0 && maxId == 0
  {
    var d, w, m := ":day", ":dayofweek", ":month";
    assert d != w && d != m && w != m by {
      assert |d| != |w| && d[1] != m[1] && |w| != |m|;
    }
  }

  /**
   * The columns derived down to the day or coarser are recognised as
   * date-denominated attribute names when the column is a plain word.
   */
  lemma DerivedDayNamesRecognised(col: string, g: Granularity)
    requires |col| > 0 && AllWordChars(col) && Position(g) <= Position(Day)
    ensures DateDenomination(col + GranularitySuffix(g)) == Some((col, GranularitySuffix(g)))
  {
    assert GranularitySuffix(g) in DateSuffixes by {
      match g
      case Year => assert GranularitySuffix(g) == DateSuffixes[5];
      case Month => assert GranularitySuffix(g) == DateSuffixes[4];
      case Day => assert GranularitySuffix(g) == DateSuffixes[3];
    }
    DateDenominationOf(col, GranularitySuffix(g));
  }

  // ---------------------------------------------------------------------------
  // add_joins_to_model_map_and_create_relationship_list
  // ---------------------------------------------------------------------------

  /** An entry of the relationship list: the join's name and its two qualified columns. */
  datatype RelEntry = RelEntry(name: Json, from: string, to: string)

  /** `table, column = s.split('.')`: exactly one dot, or a ValueError. */
  function SplitColumn(s: string): (r: Result<(string, string)>)
    ensures r.Ok? <==> |Split(s, ".")| == 2
    ensures r.Ok? ==> s == r.value.0 + "." + r.value.1
  {
    var parts := Split(s, ".");
    if |parts| == 2 then
      JoinSplit(s, ".");
      Ok((parts[0], parts[1]))
    else Err(ValueError("wrong number of values to unpack"))
  }

  /**
   * The guarded part of the loop body for one path entry: it unpacks into
   * three values and both of the first two split into table and column;
   * any failure is caught (and printed).
   */
  function PathEntry(entry: Json): (r: Option<(string, string)>)
    ensures r.Some? ==> SplitColumn(r.value.0).Ok? && SplitColumn(r.value.1).Ok?
  {
    match Iterate(entry)
    case Err(_) => None
    case Ok(items) =>
      if |items| != 3 || !items[0].JStr? || !items[1].JStr? then None
      else if SplitColumn(items[0].s).Err? || SplitColumn(items[1].s).Err? then None
      else Some((items[0].s, items[1].s))
  }

  /** The inner loop over the entries of one join path. */
  function PathEntries(name: Json, entries: seq<Json>): (r: seq<RelEntry>)
    ensures |r| <= |entries|
  {
    if entries == [] then []
    else
      var p := PathEntry(entries[0]);
      (if p.Some? then [RelEntry(name, p.value.0, p.value.1)] else []) + PathEntries(name, entries[1..])
  }

  /** The outer loop over the joins: a path that is not iterable raises a TypeError outside the guarded part. */
  function RelationshipList(joins: seq<JoinState>): Result<seq<RelEntry>>
  {
    if joins == [] then Ok([])
    else
      var entries :- Iterate(joins[0].path);
      var rest :- RelationshipList(joins[1..]);
      Ok(PathEntries(joins[0].name, entries) + rest)
  }

  /** Every entry of the list names a join and holds two columns that split into table and column. */
  lemma {:induction false} PathEntriesWellFormed(name: Json, entries: seq<Json>)
    ensures forall e :: e in PathEntries(name, entries) ==>
      e.name == name && SplitColumn(e.from).Ok? && SplitColumn(e.to).Ok?
  {
    if entries != [] {
      PathEntriesWellFormed(name, entries[1..]);
    }
  }

  lemma {:induction false} RelationshipListWellFormed(joins: seq<JoinState>)
    requires RelationshipList(joins).Ok?
    ensures forall e :: e in RelationshipList(joins).value ==>
      SplitColumn(e.from).Ok? && SplitColumn(e.to).Ok? && exists j :: j in joins && j.name == e.name
  {
    if joins != [] {
      var entries := Iterate(joins[0].path).value;
      PathEntriesWellFormed(joins[0].name, entries);
      RelationshipListWellFormed(joins[1..]);
      forall e | e in RelationshipList(joins).value
        ensures SplitColumn(e.from).Ok? && SplitColumn(e.to).Ok? && exists j :: j in joins && j.name == e.name
      {
        if e in PathEntries(joins[0].name, entries) {
          assert joins[0] in joins;
        } else {
          var j :| j in joins[1..] && j.name == e.name;
          assert j in joins;
        }
      }
    }
  }

  /** One step of the inner loop: the entries found so far, with item `k`'s, followed by the rest's, are still all of them. */
  lemma PathEntriesStep(name: Json, items: seq<Json>, k: nat, p: Option<(string, string)>, found: seq<RelEntry>)
    requires k < |items| && p == PathEntry(items[k])
    requires found + PathEntries(name, items[k..]) == PathEntries(name, items)
    ensures (if p.Some? then found + [RelEntry(name, p.value.0, p.value.1)] else found) + PathEntries(name, items[k + 1..])
      == PathEntries(name, items)
  {
    PathEntriesUnfold(name, items, k, p);
    var rest := PathEntries(name, items[k + 1..]);
    if p.Some? {
      var e := RelEntry(name, p.value.0, p.value.1);
      assert PathEntries(name, items[k..]) == [e] + rest;
      assert found + ([e] + rest) == (found + [e]) + rest;
    } else {
      assert PathEntries(name, items[k..]) == rest;
    }
  }

  /** The entries from position `k` are those of item `k` followed by those of the rest. */
  lemma PathEntriesUnfold(name: Json, items: seq<Json>, k: nat, p: Option<(string, string)>)
    requires k < |items| && p == PathEntry(items[k])
    ensures PathEntries(name, items[k..]) ==
      (if p.Some? then [RelEntry(name, p.value.0, p.value.1)] else []) + PathEntries(name, items[k + 1..])
  {
    assert items[k..][1..] == items[k + 1..];
  }

  /** The inner loop: the entries of one join path. */
  method PathRelations(name: Json, items: seq<Json>) returns (found: seq<RelEntry>)
    ensures found == PathEntries(name, items)
  {
    found := [];
    var k := 0;
    while k < |items|
      invariant k <= |items|
      invariant found + PathEntries(name, items[k..]) == PathEntries(name, items)
    {
      var p := PathEntry(items[k]);
      PathEntriesStep(name, items, k, p, found);
      if p.Some? {
        found := found + [RelEntry(name, p.value.0, p.value.1)];
      }
      k := k + 1;
    }
    assert items[k..] == [];
    assert found + [] == found;
  }

  /** `front` followed by a successful list; an error stays the error. */
  function Prepend(front: seq<RelEntry>, r: Result<seq<RelEntry>>): Result<seq<RelEntry>>
  {
    if r.Ok? then Ok(front + r.value) else r
  }

  /** The outer loop: each join's path. */
  method CreateRelationshipList(joins: seq<JoinState>) returns (r: Result<seq<RelEntry>>)
    ensures r == RelationshipList(joins)
  {
    var list: seq<RelEntry> := [];
    var i := 0;
    assert RelationshipList(joins).Ok? ==> [] + RelationshipList(joins).value == RelationshipList(joins).value;
    while i < |joins|
      invariant i <= |joins|
      invariant RelationshipList(joins) == Prepend(list, RelationshipList(joins[i..]))
    {
      assert joins[i..][1..] == joins[i + 1..];
      var entries := Iterate(joins[i].path);
      if entries.Err? {
        assert RelationshipList(joins[i..]) == Err(entries.error);
        return Err(entries.error);
      }
      var found := PathRelations(joins[i].name, entries.value);
      ghost var rest := RelationshipList(joins[i + 1..]);
      assert RelationshipList(joins[i..]) == Prepend(found, rest);
      assert rest.Ok? ==> list + (found + rest.value) == (list + found) + rest.value;
      list := list + found;
      i := i + 1;
    }
    assert joins[i..] == [];
    assert list + [] == list;
    r := Ok(list);
  }

  // ---------------------------------------------------------------------------
  // populate_relationships
  // ---------------------------------------------------------------------------

  /**
   * A relationship attribute set on the class of `owner`: named `attr`,
   * towards `target`, populated back by `backPopulates`, joined on
   * `primaryJoin`.
   */
  datatype Relation = Relation(owner: string, attr: string, target: string, backPopulates: string, primaryJoin: string)

  /**
   * The loop body for one entry: both columns split, both tables have a
   * class in the ORM (`tables`), and the name is a string; then the
   * forward relationship and its `reverse_` mirror.
   */
  function RelationPair(e: RelEntry, tables: set<string>): Result<seq<Relation>>
  {
    var (fromTable, _) :- SplitColumn(e.from);
    var (toTable, _) :- SplitColumn(e.to);
    if fromTable !in tables || toTable !in tables then Err(AttributeError("db has no such attribute"))
    else if !e.name.JStr? then Err(TypeError("can only concatenate str to str"))
    else
      var back := "reverse_" + e.name.s;
      Ok([Relation(fromTable, e.name.s, toTable, back, e.from + "==" + e.to),
          Relation(toTable, back, fromTable, e.name.s, e.to + "==" + e.from)])
  }

  /** The loop of `populate_relationships`, from entry `i` on: the relations set so far stay set when one raises. */
  function RelationsFrom(list: seq<RelEntry>, tables: set<string>, i: nat): (seq<Relation>, Option<Error>)
    decreases |list| - i
  {
    if i >= |list| then ([], None)
    else
      match RelationPair(list[i], tables)
      case Err(x) => ([], Some(x))
      case Ok(pair) =>
        var (rest, x) := RelationsFrom(list, tables, i + 1);
        (pair + rest, x)
  }

  /** The two relationships of an entry mirror each other, the second named `reverse_` and the first's name. */
  lemma RelationPairMirror(e: RelEntry, tables: set<string>)
    requires RelationPair(e, tables).Ok?
    ensures var p := RelationPair(e, tables).value;
      && |p| == 2 && e.name.JStr?
      && p[0].attr == e.name.s && p[1].attr == "reverse_" + e.name.s
      && p[0].owner == p[1].target && p[1].owner == p[0].target
      && p[0].backPopulates == p[1].attr && p[1].backPopulates == p[0].attr
      && p[0].primaryJoin == e.from + "==" + e.to && p[1].primaryJoin == e.to + "==" + e.from
  {
  }

  /** Entries built from the joins never fail to split; only a missing table or a name that is not a string raises. */
  lemma RelationPairFromList(e: RelEntry, tables: set<string>)
    requires SplitColumn(e.from).Ok? && SplitColumn(e.to).Ok?
    ensures RelationPair(e, tables).Err? <==>
      SplitColumn(e.from).value.0 !in tables || SplitColumn(e.to).value.0 !in tables || !e.name.JStr?
  {
  }

  /** When nothing raises, two relationships are set per entry, in order. */
  lemma {:induction false} RelationsFromCount(list: seq<RelEntry>, tables: set<string>, i: nat)
    requires i <= |list|
    ensures var r := RelationsFrom(list, tables, i);
      && (r.1.None? <==> forall k :: i <= k < |list| ==> RelationPair(list[k], tables).Ok?)
      && (r.1.None? ==> |r.0| == 2 * (|list| - i))
    decreases |list| - i
  {
    if i < |list| {
      var pair := RelationPair(list[i], tables);
      if pair.Ok? {
        RelationsFromCount(list, tables, i + 1);
        RelationPairMirror(list[i], tables);
        var rest := RelationsFrom(list, tables, i + 1);
        assert RelationsFrom(list, tables, i) == (pair.value + rest.0, rest.1);
      } else {
        assert RelationsFrom(list, tables, i).1 == Some(pair.error);
      }
    }
  }

  /** One step of the loop of `populate_relationships`: entry `i` either raises or appends its pair. */
  lemma RelationsFromStep(list: seq<RelEntry>, tables: set<string>, i: nat, pair: Result<seq<Relation>>, done: seq<Relation>)
    requires i < |list| && pair == RelationPair(list[i], tables)
    requires RelationsFrom(list, tables, 0) == (done + RelationsFrom(list, tables, i).0, RelationsFrom(list, tables, i).1)
    ensures pair.Err? ==> RelationsFrom(list, tables, 0) == (done, Some(pair.error))
    ensures pair.Ok? ==> RelationsFrom(list, tables, 0) == ((done + pair.value) + RelationsFrom(list, tables, i + 1).0, RelationsFrom(list, tables, i + 1).1)
  {
    if pair.Err? {
      assert RelationsFrom(list, tables, i) == ([], Some(pair.error));
      assert done + [] == done;
    } else {
      var rest := RelationsFrom(list, tables, i + 1);
      assert RelationsFrom(list, tables, i) == (pair.value + rest.0, rest.1);
      assert done + (pair.value + rest.0) == (done + pair.value) + rest.0;
    }
  }

  /** `populate_relationships`, on the set of tables that have a class in the ORM. */
  method PopulateRelationships(list: seq<RelEntry>, tables: set<string>) returns (set_: seq<Relation>, raised: Option<Error>)
    ensures (set_, raised) == RelationsFrom(list, tables, 0)
  {
    set_ := [];
    var i := 0;
    assert [] + RelationsFrom(list, tables, 0).0 == RelationsFrom(list, tables, 0).0;
    while i < |list|
      invariant i <= |list|
      invariant RelationsFrom(list, tables, 0) == (set_ + RelationsFrom(list, tables, i).0, RelationsFrom(list, tables, i).1)
    {
      var pair := RelationPair(list[i], tables);
      RelationsFromStep(list, tables, i, pair, set_);
      if pair.Err? {
        return set_, Some(pair.error);
      }
      set_ := set_ + pair.value;
      i := i + 1;
    }
    raised := None;
    assert set_ + [] == set_;
  }
}
