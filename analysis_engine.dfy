/**
 * `core/Analysis/AnalysisEngine.py`: running the per-subplan query records
 * as nested queries and shaping the answer. The queries themselves are
 * SQLAlchemy objects and stay abstract: `complex_query` is modelled over a
 * query-building function given as a parameter, and the result rows are a
 * parameter. What is modelled is the order in which subqueries are built
 * and which earlier ones each may use, the choice of the outermost alias,
 * the lookup of query fields by name, the sort direction, and the units of
 * the outermost subplan's columns.
 */
module AnalysisEngines {

  import opened Wrappers
  import opened Chars
  import opened Dicts
  import opened Json
  import opened Terms
  import opened ApiUtils
  import opened ArgTypes
  import opened SqrFields
  import opened QueryArgs
  import opened RingAttributes
  import opened RingEntities
  import opened Rings

  // ---------------------------------------------------------------------------
  // The outermost alias
  // ---------------------------------------------------------------------------

  /** Python's `a <= b` on strings: code points compared left to right, a proper prefix first. */
  predicate StrLe(a: string, b: string)
  {
    a == [] || (b != [] && (a[0] < b[0] || (a[0] == b[0] && StrLe(a[1..], b[1..]))))
  }

  lemma {:induction false} StrLeRefl(a: string)
    ensures StrLe(a, a)
  {
    if a != [] {
      StrLeRefl(a[1..]);
    }
  }

  lemma {:induction false} StrLeTotal(a: string, b: string)
    ensures StrLe(a, b) || StrLe(b, a)
  {
    if a != [] && b != [] && a[0] == b[0] {
      StrLeTotal(a[1..], b[1..]);
    }
  }

  lemma {:induction false} StrLeTrans(a: string, b: string, c: string)
    requires StrLe(a, b) && StrLe(b, c)
    ensures StrLe(a, c)
  {
    if a != [] && b != [] && c != [] && a[0] == b[0] && b[0] == c[0] {
      StrLeTrans(a[1..], b[1..], c[1..]);
    }
  }

  lemma {:induction false} StrLeAntisymmetric(a: string, b: string)
    requires StrLe(a, b) && StrLe(b, a)
    ensures a == b
  {
    if a != [] && b != [] {
      StrLeAntisymmetric(a[1..], b[1..]);
      assert a == [a[0]] + a[1..] && b == [b[0]] + b[1..];
    }
  }

  /** `s.partition('_')[2]`: what follows the first underscore, or "" when there is none. */
  function AfterUnderscore(s: string): (r: string)
    ensures |r| <= |s|
  {
    if s == [] then ""
    else if s[0] == '_' then s[1..]
    else AfterUnderscore(s[1..])
  }

  /** The part after `alias_` of an alias whose prefix has no underscore. */
  lemma {:induction false} AfterPrefix(prefix: string, rest: string)
    requires forall k :: 0 <= k < |prefix| ==> prefix[k] != '_'
    ensures AfterUnderscore(prefix + "_" + rest) == rest
  {
    if prefix != [] {
      assert (prefix + "_" + rest)[1..] == prefix[1..] + "_" + rest;
      AfterPrefix(prefix[1..], rest);
    } else {
      assert prefix + "_" + rest == "_" + rest;
    }
  }

  /** The loop of `max`: the best so far is replaced by each later item greater than it. */
  function MaxFrom(best: string, rest: seq<string>): (r: string)
    decreases |rest|
  {
    if rest == [] then best
    else MaxFrom(if StrLe(rest[0], best) then best else rest[0], rest[1..])
  }

  /** `max(xs)` on strings: ValueError for an empty sequence. */
  function MaxString(xs: seq<string>): (r: Result<string>)
    ensures r.Err? <==> xs == []
    ensures r.Err? ==> r.error == ValueError("max() arg is an empty sequence")
  {
    if xs == [] then Err(ValueError("max() arg is an empty sequence")) else Ok(MaxFrom(xs[0], xs[1..]))
  }

  /** The loop ends on one of the items, no less than any of them. */
  lemma {:induction false} MaxFromIsMax(best: string, rest: seq<string>)
    ensures MaxFrom(best, rest) == best || MaxFrom(best, rest) in rest
    ensures StrLe(best, MaxFrom(best, rest))
    ensures forall x :: x in rest ==> StrLe(x, MaxFrom(best, rest))
    decreases |rest|
  {
    if rest == [] {
      StrLeRefl(best);
    } else {
      var next := if StrLe(rest[0], best) then best else rest[0];
      MaxFromIsMax(next, rest[1..]);
      var m := MaxFrom(best, rest);
      assert m == MaxFrom(next, rest[1..]);
      StrLeTotal(rest[0], best);
      if StrLe(rest[0], best) {
        StrLeRefl(best);
        StrLeTrans(rest[0], best, m);
      } else {
        StrLeTrans(best, rest[0], m);
      }
      forall x | x in rest
        ensures StrLe(x, m)
      {
        if x != rest[0] {
          assert x in rest[1..];
        }
      }
    }
  }

  /** `max` picks an item that is no less than every item. */
  lemma MaxStringIsMax(xs: seq<string>)
    requires xs != []
    ensures MaxString(xs).value in xs
    ensures forall x :: x in xs ==> StrLe(x, MaxString(xs).value)
  {
    MaxFromIsMax(xs[0], xs[1..]);
    assert xs == [xs[0]] + xs[1..];
  }

  function Suffixes(keys: seq<string>): (r: seq<string>)
    ensures |r| == |keys|
    ensures forall k :: 0 <= k < |keys| ==> r[k] == AfterUnderscore(keys[k])
  {
    seq(|keys|, k requires 0 <= k < |keys| => AfterUnderscore(keys[k]))
  }

  /**
   * The outermost alias as `sqr_single_ring_analysis` and `get_units` write
   * it: `alias_` followed by the greatest suffix, compared as strings.
   */
  function OutermostAliasAsWritten(keys: seq<string>): (r: Result<string>)
    ensures r.Ok? <==> keys != []
  {
    var m :- MaxString(Suffixes(keys));
    Ok("alias_" + m)
  }

  /** `alias_9` beats `alias_10`: the eleventh subplan is never taken for the outermost one. */
  lemma StringMaxMissesAlias10()
    ensures OutermostAliasAsWritten(["alias_9", "alias_10"]) == Ok("alias_9")
  {
    AfterPrefix("alias", "9");
    AfterPrefix("alias", "10");
    assert Suffixes(["alias_9", "alias_10"]) == ["9", "10"];
    assert StrLe("10", "9");
    assert MaxString(["9", "10"]) == Ok(MaxFrom("9", ["10"]));
    assert MaxFrom("9", ["10"]) == MaxFrom("9", []) == "9";
    assert "alias_" + "9" == "alias_9";
  }

  /** `int(s)` for a string of decimal digits; None for anything else. */
  function DigitsValue(s: string): (r: Option<nat>)
    decreases |s|
  {
    if s == [] || !('0' <= s[|s| - 1] <= '9') then None
    else if |s| == 1 then Some((s[0] as int - '0' as int) as nat)
    else
      match DigitsValue(s[..|s| - 1])
      case None => None
      case Some(v) => Some(v * 10 + (s[|s| - 1] as int - '0' as int))
  }

  /** The digits `str(n)` prints read back as `n`. */
  lemma {:induction false} DigitsValueOfNat(n: nat)
    ensures DigitsValue(NatToString(n)) == Some(n)
  {
    var s := NatToString(n);
    if n >= 10 {
      DigitsValueOfNat(n / 10);
      assert s[..|s| - 1] == NatToString(n / 10);
    }
  }

  /** The alias number of a key: the value of its digits after the underscore. */
  function AliasNumber(key: string): Option<nat>
  {
    DigitsValue(AfterUnderscore(key))
  }

  /** The loop of the intended maximum: the first key with the greatest alias number. */
  function MaxNumberFrom(best: string, rest: seq<string>): (r: Result<string>)
    requires AliasNumber(best).Some?
    decreases |rest|
  {
    if rest == [] then Ok(best)
    else match AliasNumber(rest[0])
      case None => Err(ValueError("invalid literal for int() with base 10: '" + AfterUnderscore(rest[0]) + "'"))
      case Some(v) => MaxNumberFrom(if v <= AliasNumber(best).value then best else rest[0], rest[1..])
  }

  /**
   * The outermost alias as evidently intended: the key with the greatest
   * alias number, compared as numbers (`max(keys, key=lambda a:
   * int(a.partition('_')[2]))`); a key without a number raises ValueError.
   */
  function OutermostAlias(keys: seq<string>): (r: Result<string>)
  {
    if keys == [] then Err(ValueError("max() arg is an empty sequence"))
    else match AliasNumber(keys[0])
      case None => Err(ValueError("invalid literal for int() with base 10: '" + AfterUnderscore(keys[0]) + "'"))
      case Some(_) => MaxNumberFrom(keys[0], keys[1..])
  }

  lemma {:induction false} MaxNumberFromIsMax(best: string, rest: seq<string>)
    requires AliasNumber(best).Some?
    requires MaxNumberFrom(best, rest).Ok?
    ensures var m := MaxNumberFrom(best, rest).value;
      && (m == best || m in rest)
      && AliasNumber(m).Some?
      && AliasNumber(best).value <= AliasNumber(m).value
      && forall x :: x in rest ==> AliasNumber(x).Some? && AliasNumber(x).value <= AliasNumber(m).value
    decreases |rest|
  {
    if rest != [] {
      var v := AliasNumber(rest[0]).value;
      var next := if v <= AliasNumber(best).value then best else rest[0];
      MaxNumberFromIsMax(next, rest[1..]);
      var m := MaxNumberFrom(best, rest).value;
      assert m == MaxNumberFrom(next, rest[1..]).value;
      forall x | x in rest
        ensures AliasNumber(x).Some? && AliasNumber(x).value <= AliasNumber(m).value
      {
        if x != rest[0] {
          assert x in rest[1..];
        }
      }
    }
  }

  /**
   * The intended outermost alias is a key whose number is the greatest;
   * every key carries a number when it succeeds.
   */
  lemma OutermostAliasIsGreatest(keys: seq<string>)
    requires OutermostAlias(keys).Ok?
    ensures OutermostAlias(keys).value in keys
    ensures AliasNumber(OutermostAlias(keys).value).Some?
    ensures forall x :: x in keys ==>
      AliasNumber(x).Some? && AliasNumber(x).value <= AliasNumber(OutermostAlias(keys).value).value
  {
    MaxNumberFromIsMax(keys[0], keys[1..]);
    assert keys == [keys[0]] + keys[1..];
  }

  /** `f"alias_{n}"` carries the alias number `n`. */
  lemma AliasNumbered(n: nat)
    ensures AliasNumber("alias_" + NatToString(n)) == Some(n)
  {
    AfterPrefix("alias", NatToString(n));
    assert "alias" + "_" + NatToString(n) == "alias_" + NatToString(n);
    DigitsValueOfNat(n);
  }

  /** One step of the intended maximum, for keys that carry numbers. */
  lemma MaxNumberStep(best: string, rest: seq<string>)
    requires rest != [] && AliasNumber(best).Some? && AliasNumber(rest[0]).Some?
    ensures MaxNumberFrom(best, rest)
      == MaxNumberFrom(if AliasNumber(rest[0]).value <= AliasNumber(best).value then best else rest[0], rest[1..])
  {
  }

  /**
   * Of two numbered aliases, the intended choice is the one with the larger
   * number: `alias_10` over `alias_9`, where the string maximum takes `alias_9`.
   */
  lemma TwoAliases(m: nat, n: nat)
    requires m < n
    ensures OutermostAlias(["alias_" + NatToString(m), "alias_" + NatToString(n)]) == Ok("alias_" + NatToString(n))
  {
    var keys := ["alias_" + NatToString(m), "alias_" + NatToString(n)];
    AliasNumbered(m);
    AliasNumbered(n);
    assert keys[1..] == [keys[1]] && keys[1..][1..] == [];
    MaxNumberStep(keys[0], keys[1..]);
  }

  /** For the aliases `alias_0` … `alias_n` the planner assigns, the intended choice is the last one. */
  lemma OutermostOfNumbered(keys: seq<string>, n: nat)
    requires |keys| == n + 1 && forall i :: 0 <= i <= n ==> keys[i] == "alias_" + NatToString(i)
    ensures OutermostAlias(keys) == Ok("alias_" + NatToString(n))
  {
    forall i | 0 <= i <= n
      ensures AliasNumber(keys[i]) == Some(i)
    {
      AliasNumbered(i);
    }
    NumberedFromAll(keys, 0);
    NumberedMax(keys, 0, n);
    assert keys[0 + 1..] == keys[1..];
  }

  /** Each key from position `j` on has its own position as alias number. */
  predicate NumberedFrom(keys: seq<string>, j: nat)
    decreases |keys| - j
  {
    j >= |keys| || (AliasNumber(keys[j]) == Some(j) && NumberedFrom(keys, j + 1))
  }

  lemma {:induction false} NumberedFromAll(keys: seq<string>, j: nat)
    requires j <= |keys| && forall i :: 0 <= i < |keys| ==> AliasNumber(keys[i]) == Some(i)
    ensures NumberedFrom(keys, j)
    decreases |keys| - j
  {
    if j < |keys| {
      assert AliasNumber(keys[j]) == Some(j);
      NumberedFromAll(keys, j + 1);
    }
  }

  lemma {:induction false} NumberedMax(keys: seq<string>, j: nat, n: nat)
    requires |keys| == n + 1 && j <= n && NumberedFrom(keys, j)
    ensures MaxNumberFrom(keys[j], keys[j + 1..]) == Ok(keys[n])
    decreases n - j
  {
    if j < n {
      assert NumberedFrom(keys, j + 1);
      NumberedMax(keys, j + 1, n);
      NumberedStep(keys, j);
    } else {
      NumberedLast(keys, j);
    }
  }

  /** The scan ends at the last key. */
  lemma NumberedLast(keys: seq<string>, j: nat)
    requires j + 1 == |keys| && AliasNumber(keys[j]).Some?
    ensures MaxNumberFrom(keys[j], keys[j + 1..]) == Ok(keys[j])
  {
    assert keys[j + 1..] == [];
  }

  /** Alias `j + 1` beats alias `j`, so the scan goes on from it. */
  lemma NumberedStep(keys: seq<string>, j: nat)
    requires j + 1 < |keys| && AliasNumber(keys[j]) == Some(j) && AliasNumber(keys[j + 1]) == Some(j + 1)
    ensures MaxNumberFrom(keys[j], keys[j + 1..]) == MaxNumberFrom(keys[j + 1], keys[j + 2..])
  {
    var rest := keys[j + 1..];
    assert rest[0] == keys[j + 1] && rest[1..] == keys[j + 2..];
    MaxNumberStep(keys[j], rest);
  }

  // ---------------------------------------------------------------------------
  // complex_query
  // ---------------------------------------------------------------------------

  /** `{from_: queries[from_] for from_ in froms if from_ in queries}`. */
  function Subqueries<Q>(froms: seq<string>, built: Dict<Q>): (r: map<string, Q>)
    ensures forall a :: a in r <==> a in froms && HasKey(built, a)
    ensures forall a :: a in r ==> Some(r[a]) == Get(built, a)
  {
    map a | a in froms && HasKey(built, a) :: Get(built, a).value
  }

  /** The loop of `complex_query` from the `i`-th subplan on, over the queries built so far. */
  function BuildQueries<Q>(args: Dict<Snapshot>, simple: (Snapshot, map<string, Q>) -> Q, i: nat, built: Dict<Q>): Dict<Q>
    requires i <= |args|
    decreases |args| - i
  {
    if i == |args| then built
    else
      var (alias, a) := args[i];
      BuildQueries(args, simple, i + 1, Put(built, alias, simple(a, Subqueries(a.froms, built))))
  }

  /** `complex_query`: the query of the last subplan built; there is none for an empty record. */
  function ComplexQuery<Q>(args: Dict<Snapshot>, simple: (Snapshot, map<string, Q>) -> Q): (r: Result<Q>)
  {
    var built := BuildQueries(args, simple, 0, []);
    if built == [] then Err(IndexError) else Ok(built[|built| - 1].1)
  }

  /**
   * Over a record with distinct aliases, the loop builds one query per
   * subplan in key order, each from that subplan's record and the queries
   * already built that its froms name.
   */
  lemma {:induction false} BuildQueriesOrder<Q>(args: Dict<Snapshot>, simple: (Snapshot, map<string, Q>) -> Q, i: nat, built: Dict<Q>)
    requires DistinctKeys(args) && i <= |args|
    requires |built| == i && forall k :: 0 <= k < i ==> built[k].0 == args[k].0
    ensures var out := BuildQueries(args, simple, i, built);
      && |out| == |args| && out[..i] == built
      && forall k :: i <= k < |args| ==>
           out[k] == (args[k].0, simple(args[k].1, Subqueries(args[k].1.froms, out[..k])))
    decreases |args| - i
  {
    if i < |args| {
      var (alias, a) := args[i];
      forall k | 0 <= k < |built|
        ensures built[k].0 != alias
      {
        assert args[k].0 != args[i].0;
      }
      var next := built + [(alias, simple(a, Subqueries(a.froms, built)))];
      assert Put(built, alias, simple(a, Subqueries(a.froms, built))) == next;
      BuildQueriesOrder(args, simple, i + 1, next);
      var out := BuildQueries(args, simple, i, built);
      assert out == BuildQueries(args, simple, i + 1, next);
      assert out[..i] == out[..i + 1][..i];
      assert out[..i] == next[..i];
      assert out[i] == next[i];
    }
  }

  /**
   * `complex_query` builds the subplans in key order; the `k`-th sees exactly
   * the subplans named in its froms that come before it, and the answer is
   * the query of the last subplan.
   */
  lemma ComplexQueryOrder<Q>(args: Dict<Snapshot>, simple: (Snapshot, map<string, Q>) -> Q)
    requires DistinctKeys(args)
    ensures ComplexQuery(args, simple).Ok? <==> args != []
    ensures var built := BuildQueries(args, simple, 0, []);
      && |built| == |args|
      && (forall k :: 0 <= k < |args| ==> built[k].0 == args[k].0)
      && (forall k, a :: 0 <= k < |args| ==>
            (a in Subqueries(args[k].1.froms, built[..k]) <==> a in args[k].1.froms && a in Keys(args[..k])))
      && (args != [] ==> ComplexQuery(args, simple) == Ok(built[|args| - 1].1))
  {
    BuildQueriesOrder(args, simple, 0, []);
    var built := BuildQueries(args, simple, 0, []);
    forall k, a | 0 <= k < |args|
      ensures a in Subqueries(args[k].1.froms, built[..k]) <==> a in args[k].1.froms && a in Keys(args[..k])
    {
      if HasKey(built[..k], a) {
        var j :| 0 <= j < k && built[..k][j].0 == a;
        assert Keys(args[..k])[j] == a;
      }
      if a in Keys(args[..k]) {
        var j :| 0 <= j < k && Keys(args[..k])[j] == a;
        assert built[..k][j].0 == a;
      }
    }
  }

  /** `complex_query` with its loop over the subplans. */
  method ComplexQueryLoop<Q>(args: Dict<Snapshot>, simple: (Snapshot, map<string, Q>) -> Q) returns (r: Result<Q>)
    ensures r == ComplexQuery(args, simple)
  {
    var queries: Dict<Q> := [];
    for i := 0 to |args|
      invariant BuildQueries(args, simple, 0, []) == BuildQueries(args, simple, i, queries)
    {
      var (alias, a) := args[i];
      var subqueries := map f | f in a.froms && HasKey(queries, f) :: Get(queries, f).value;
      queries := Put(queries, alias, simple(a, subqueries));
    }
    if queries == [] {
      return Err(IndexError);
    }
    r := Ok(queries[|queries| - 1].1);
  }

  // ---------------------------------------------------------------------------
  // Fields by name and sort direction
  // ---------------------------------------------------------------------------

  /** `field.name` of a query field: its label. */
  function TermName(t: Term): Option<string>
  {
    if t.Labelled? then Some(t.name) else None
  }

  /** `next(filter(lambda field: field.name == name, fields))`: StopIteration when no field has the name. */
  function FirstNamed(fields: seq<Term>, name: string): (r: Result<Term>)
    ensures r.Ok? <==> exists k :: 0 <= k < |fields| && TermName(fields[k]) == Some(name)
    ensures r.Ok? ==> exists k :: (0 <= k < |fields| && fields[k] == r.value && TermName(fields[k]) == Some(name) &&
      forall j :: 0 <= j < k ==> TermName(fields[j]) != Some(name))
    ensures r.Err? ==> r.error == StopIteration
  {
    if fields == [] then Err(StopIteration)
    else if TermName(fields[0]) == Some(name) then Ok(fields[0])
    else
      var r := FirstNamed(fields[1..], name);
      if r.Ok? then
        var k :| 0 <= k < |fields[1..]| && fields[1..][k] == r.value && TermName(fields[1..][k]) == Some(name) &&
          forall j :: 0 <= j < k ==> TermName(fields[1..][j]) != Some(name);
        assert fields[k + 1] == r.value;
        r
      else
        r
  }

  /** The list comprehension over names: the first error ends it. */
  function FieldsNamed(fields: seq<Term>, names: seq<string>): (r: Result<seq<Term>>)
  {
    if names == [] then Ok([])
    else
      var t :- FirstNamed(fields, names[0]);
      var rest :- FieldsNamed(fields, names[1..]);
      Ok([t] + rest)
  }

  /** Every name maps to the first field carrying it, in the order of the names. */
  lemma {:induction false} FieldsNamedMeaning(fields: seq<Term>, names: seq<string>)
    ensures FieldsNamed(fields, names).Ok? <==> forall i :: 0 <= i < |names| ==> FirstNamed(fields, names[i]).Ok?
    ensures FieldsNamed(fields, names).Ok? ==>
      |FieldsNamed(fields, names).value| == |names| &&
      forall i :: 0 <= i < |names| ==> FieldsNamed(fields, names).value[i] == FirstNamed(fields, names[i]).value
  {
    if names != [] {
      FieldsNamedMeaning(fields, names[1..]);
      if FirstNamed(fields, names[0]).Ok? && !FieldsNamed(fields, names[1..]).Ok? {
        var i :| 0 <= i < |names[1..]| && !FirstNamed(fields, names[1..][i]).Ok?;
        assert names[i + 1] == names[1..][i];
      }
    }
  }

  /** `convert_select_strings_to_fields`. */
  function SelectFields(a: Snapshot): Result<seq<Term>>
  {
    FieldsNamed(a.queryFields, a.select)
  }

  /** `convert_groupby_strings_to_fields`. */
  function GroupByFields(a: Snapshot): Result<seq<Term>>
  {
    FieldsNamed(a.queryFields, a.groupBys)
  }

  /**
   * One `order_by` key of `simple_query`: a field in descending order for
   * the direction 'desc' and ascending for any other, always with nulls
   * last.
   */
  datatype Ordering = NullsLast(field: Term, descending: bool)

  function SortKey(field: Term, direction: string): (o: Ordering)
    ensures o.field == field
    ensures o.descending <==> direction == "desc"
  {
    NullsLast(field, direction == "desc")
  }

  /** `convert_sortby_strings_to_fields` followed by the `order_by` keys. */
  function SortKeys(fields: seq<Term>, sorts: seq<SortAttribute>): (r: Result<seq<Ordering>>)
  {
    if sorts == [] then Ok([])
    else
      var t :- FirstNamed(fields, sorts[0].attribute);
      var rest :- SortKeys(fields, sorts[1..]);
      Ok([SortKey(t, sorts[0].direction)] + rest)
  }

  /** One key per sort request, in order, on the first field of its name and descending exactly for 'desc'. */
  lemma {:induction false} SortKeysMeaning(fields: seq<Term>, sorts: seq<SortAttribute>)
    requires SortKeys(fields, sorts).Ok?
    ensures var keys := SortKeys(fields, sorts).value;
      |keys| == |sorts| &&
      forall i :: 0 <= i < |sorts| ==>
        FirstNamed(fields, sorts[i].attribute).Ok? &&
        keys[i].field == FirstNamed(fields, sorts[i].attribute).value &&
        (keys[i].descending <==> sorts[i].direction == "desc")
  {
    if sorts != [] {
      SortKeysMeaning(fields, sorts[1..]);
      var keys := SortKeys(fields, sorts).value;
      forall i | 0 <= i < |sorts|
        ensures FirstNamed(fields, sorts[i].attribute).Ok? &&
          keys[i].field == FirstNamed(fields, sorts[i].attribute).value &&
          (keys[i].descending <==> sorts[i].direction == "desc")
      {
        if i > 0 {
          assert sorts[i] == sorts[1..][i - 1];
        }
      }
    }
  }

  // ---------------------------------------------------------------------------
  // Units
  // ---------------------------------------------------------------------------

  const NoUnits: Json := JList([JStr(""), JStr("")])

  /** `ArgType.Identifier in attr_obj.type`: an attribute without types is not iterable. */
  function HasIdentifierType(a: AttributeState): (r: Result<bool>)
    ensures r.Ok? <==> a.types.Some?
    ensures r.Ok? ==> (r.value <==> Identifier in a.types.value)
  {
    match a.types
    case None => Err(TypeError("argument of type 'NoneType' is not iterable"))
    case Some(ts) => Ok(Identifier in ts)
  }

  /**
   * `_get_field_units(ring, entity_unit, entity_name, attribute_name,
   * base_unit)`: no units without an attribute; otherwise, with any date
   * suffix stripped, the attribute's declared units, else the entity's
   * nicename for a count over an identifier, else the attribute's nicename
   * when `base_unit` is off, else none; an attribute the entity lacks gives
   * the entity's nicename.
   */
  function FieldUnits(entities: seq<EntityState>, entityUnit: bool, entityName: Option<string>,
                      attributeName: Option<string>, baseUnit: bool): Result<Json>
  {
    if attributeName.None? || attributeName.value == "" then Ok(NoUnits)
    else
      var e :- EntityByName(entities, if entityName.Some? then JStr(entityName.value) else JNull);
      var name := BaseAttribute(attributeName.value);
      match Get(e.attributes, name)
      case None => Ok(e.nicename)
      case Some(a) =>
        if Truthy(a.units) then Ok(a.units)
        else
          var identifier :- if entityUnit then HasIdentifierType(a) else Ok(false);
          if identifier then Ok(e.nicename)
          else if !baseUnit then Ok(a.nicename)
          else Ok(NoUnits)
  }

  /** The order in which `_get_field_units` decides, case by case. */
  lemma FieldUnitsCases(entities: seq<EntityState>, entityUnit: bool, entityName: Option<string>,
                        attributeName: string, baseUnit: bool)
    requires attributeName != ""
    requires EntityByName(entities, if entityName.Some? then JStr(entityName.value) else JNull).Ok?
    ensures var e := EntityByName(entities, if entityName.Some? then JStr(entityName.value) else JNull).value;
      var r := FieldUnits(entities, entityUnit, entityName, Some(attributeName), baseUnit);
      var name := BaseAttribute(attributeName);
      && (!HasKey(e.attributes, name) ==> r == Ok(e.nicename))
      && (HasKey(e.attributes, name) ==>
            var a := Get(e.attributes, name).value;
            && (Truthy(a.units) ==> r == Ok(a.units))
            && (!Truthy(a.units) && entityUnit && a.types.Some? && Identifier in a.types.value ==> r == Ok(e.nicename))
            && (!Truthy(a.units) && (!entityUnit || (a.types.Some? && Identifier !in a.types.value)) ==>
                  r == Ok(if baseUnit then NoUnits else a.nicename))
            && (!Truthy(a.units) && entityUnit && a.types.None? ==> r.Err? && r.error.TypeError?))
  {
  }

  /** A date-suffixed attribute has the units of its base attribute. */
  lemma DateSuffixedUnits(entities: seq<EntityState>, entityUnit: bool, entityName: Option<string>,
                          base: string, suffix: string, baseUnit: bool)
    requires |base| > 0 && base != "id" && AllWordChars(base) && suffix in DateSuffixes
    ensures FieldUnits(entities, entityUnit, entityName, Some(base + suffix), baseUnit) ==
      FieldUnits(entities, entityUnit, entityName, Some(base), baseUnit)
  {
    DateDenominationOf(base, suffix);
    BaseOfDateSuffixed(base, suffix);
  }

  /** `[unit + per_string for unit in unit_pair]` with the empty per string: each unit must be a string. */
  function UnitStrings(pair: Json): (r: Result<seq<string>>)
    ensures pair.JList? ==> (r.Ok? <==> forall k :: 0 <= k < |pair.items| ==> pair.items[k].JStr?)
    ensures pair.JList? && r.Ok? ==> |r.value| == |pair.items| && forall k :: 0 <= k < |pair.items| ==> r.value[k] == pair.items[k].s
  {
    var items :- Iterate(pair);
    match Strings(items)
    case Some(units) => Ok(units)
    case None => Err(TypeError("can only concatenate str (not \"" + "object" + "\") to str"))
  }

  /**
   * The units of one column of the outermost subplan: a ValueError while
   * finding them becomes no units, any other error propagates.
   */
  function ColumnUnits(entities: seq<EntityState>, sqrfields: Dict<SQRField>, name: string): Result<seq<string>>
  {
    match Get(sqrfields, name)
    case None => Err(KeyError(name))
    case Some(f) =>
      var pair :- (
        var count :- HasCountOperation(f);
        var entity :- SatyrnEntity(f);
        var attr :- SatyrnAttribute(f);
        match FieldUnits(entities, count, entity, attr, true)
        case Err(ValueError(_)) => Ok(NoUnits)
        case other => other);
      UnitStrings(pair)
  }

  /** The units of the remaining columns after those found so far, given the per-column lookup. */
  function UnitsFrom(column: string -> Result<seq<string>>, names: seq<string>, found: seq<seq<string>>): Result<seq<seq<string>>>
  {
    if names == [] then Ok(found)
    else
      var u :- column(names[0]);
      UnitsFrom(column, names[1..], found + [u])
  }

  function ColumnLookup(entities: seq<EntityState>, sqrfields: Dict<SQRField>): string -> Result<seq<string>>
  {
    name => ColumnUnits(entities, sqrfields, name)
  }

  /** `get_units`: the units of each select column of the outermost subplan. */
  function Units(entities: seq<EntityState>, args: Dict<Snapshot>): Result<seq<seq<string>>>
  {
    var outer :- OutermostAlias(Keys(args));
    match Get(args, outer)
    case None => Err(KeyError(outer))
    case Some(a) => UnitsFrom(ColumnLookup(entities, a.sqrfields), a.select, [])
  }

  /** One units entry per column after those found so far, in order, each what the column's own lookup gives. */
  lemma {:induction false} UnitsFromMeaning(column: string -> Result<seq<string>>, names: seq<string>, found: seq<seq<string>>)
    requires UnitsFrom(column, names, found).Ok?
    ensures var us := UnitsFrom(column, names, found).value;
      && |us| == |found| + |names|
      && us[..|found|] == found
      && forall i :: 0 <= i < |names| ==> column(names[i]).Ok? && us[|found| + i] == column(names[i]).value
  {
    if names != [] {
      var u := column(names[0]).value;
      UnitsFromMeaning(column, names[1..], found + [u]);
      var us := UnitsFrom(column, names, found).value;
      assert us == UnitsFrom(column, names[1..], found + [u]).value;
      assert us[..|found|] == us[..|found| + 1][..|found|];
      forall i | 0 <= i < |names|
        ensures column(names[i]).Ok? && us[|found| + i] == column(names[i]).value
      {
        if i > 0 {
          assert names[i] == names[1..][i - 1];
        } else {
          assert us[|found|] == (found + [u])[|found|];
        }
      }
    }
  }

  /** A column without an attribute has no units. */
  lemma NoAttributeNoUnits(entities: seq<EntityState>, sqrfields: Dict<SQRField>, name: string)
    requires Get(sqrfields, name).Some?
    requires var f := Get(sqrfields, name).value;
      HasCountOperation(f).Ok? && SatyrnEntity(f).Ok? && SatyrnAttribute(f) == Ok(None)
    ensures ColumnUnits(entities, sqrfields, name) == Ok(["", ""])
  {
    var u := UnitStrings(NoUnits);
    assert NoUnits.items[0].JStr? && NoUnits.items[1].JStr?;
    assert u.value == ["", ""];
  }

  /** `get_units` with its loop over the select columns. */
  method GetUnits(entities: seq<EntityState>, args: Dict<Snapshot>) returns (r: Result<seq<seq<string>>>)
    ensures r == Units(entities, args)
  {
    var outer := OutermostAlias(Keys(args));
    if outer.Err? {
      return Err(outer.error);
    }
    var found := Get(args, outer.value);
    if found.None? {
      return Err(KeyError(outer.value));
    }
    var a := found.value;
    var units: seq<seq<string>> := [];
    var i := 0;
    var column := ColumnLookup(entities, a.sqrfields);
    assert a.select[0..] == a.select;
    while i < |a.select|
      invariant 0 <= i <= |a.select|
      invariant UnitsFrom(column, a.select, []) == UnitsFrom(column, a.select[i..], units)
    {
      assert a.select[i..][1..] == a.select[i + 1..];
      var u := ColumnUnits(entities, a.sqrfields, a.select[i]);
      assert u == column(a.select[i]);
      if u.Err? {
        return Err(u.error);
      }
      units := units + [u.value];
      i := i + 1;
    }
    r := Ok(units);
  }

  // ---------------------------------------------------------------------------
  // sqr_single_ring_analysis
  // ---------------------------------------------------------------------------

  /** The answer: the row count, the rows, the outermost subplan's column names and their units. */
  datatype Answer = Answer(length: nat, results: seq<seq<Json>>, fieldNames: seq<string>, units: seq<seq<string>>)

  /**
   * The shaping of `sqr_single_ring_analysis` around the rows the query
   * returned: the units first, then the outermost subplan's select list.
   */
  function SingleRingAnalysis(entities: seq<EntityState>, args: Dict<Snapshot>, rows: seq<seq<Json>>): Result<Answer>
  {
    var units :- Units(entities, args);
    var outer :- OutermostAlias(Keys(args));
    match Get(args, outer)
    case None => Err(KeyError(outer))
    case Some(a) => Ok(Answer(|rows|, rows, a.select, units))
  }

  /**
   * The answer has one entry per row, the outermost subplan's select list
   * in order for field names, and one units entry per field name.
   */
  lemma SingleRingAnalysisShape(entities: seq<EntityState>, args: Dict<Snapshot>, rows: seq<seq<Json>>)
    requires SingleRingAnalysis(entities, args, rows).Ok?
    ensures var ans := SingleRingAnalysis(entities, args, rows).value;
      var outer := OutermostAlias(Keys(args)).value;
      && ans.length == |rows| && ans.results == rows
      && outer in Keys(args)
      && Get(args, outer).Some? && ans.fieldNames == Get(args, outer).value.select
      && |ans.units| == |ans.fieldNames|
  {
    var outer := OutermostAlias(Keys(args)).value;
    OutermostAliasIsGreatest(Keys(args));
    var a := Get(args, outer).value;
    UnitsFromMeaning(ColumnLookup(entities, a.sqrfields), a.select, []);
  }
}
