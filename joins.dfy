/**
 * `core/Analysis/QueryBuilderSQR.py`, the join handling: `add_join_to_query`
 * joins one more table through a relationship attribute of the ORM model,
 * `add_joins_to_query` applies the pending joins one at a time, each time
 * the first one that touches a table already in the query, and the last
 * loop of `update_query_arguments` collects the joins between every pair
 * of entities of the froms.
 *
 * The SQLAlchemy query is modelled as the list of join clauses it has been
 * given, and the ORM models as the set of attribute names of each table.
 */
module Joins {

  import opened Wrappers
  import opened QueryArgs

  /** The fields of a `RingJoin` that joining reads. */
  datatype Join = Join(name: string, fromTable: string, toTable: string)

  /** `query.join(target, getattr(owner, attribute), isouter=True)`. */
  datatype Clause = Clause(target: string, owner: string, attribute: string)

  type Query = seq<Clause>

  /** The relationship attributes of each table's ORM model (`ring.db`). */
  type Models = map<string, set<string>>

  /** `get_join_by_name`: the first join of the data source with that name. */
  function JoinByName(joins: seq<Join>, name: string): (r: Result<Join>)
    ensures r.Ok? <==> exists i :: 0 <= i < |joins| && joins[i].name == name
    ensures r.Ok? ==> exists i :: 0 <= i < |joins| && joins[i] == r.value && r.value.name == name &&
                                 (forall k :: 0 <= k < i ==> joins[k].name != name)
    ensures r.Err? ==> r.error == IndexError
  {
    if joins == [] then Err(IndexError)
    else if joins[0].name == name then Ok(joins[0])
    else
      var r := JoinByName(joins[1..], name);
      if r.Ok? then
        var i :| 0 <= i < |joins[1..]| && joins[1..][i] == r.value && r.value.name == name &&
                 (forall k :: 0 <= k < i ==> joins[1..][k].name != name);
        assert joins[i + 1] == r.value;
        r
      else
        assert forall i :: 1 <= i < |joins| ==> joins[i] == joins[1..][i - 1];
        r
  }

  /** `[ring.get_join_by_name(n) for n in joins_todo]`, in the iteration order `order`. */
  function JoinList(joins: seq<Join>, order: seq<string>): (r: Result<seq<Join>>)
    ensures r.Ok? ==> |r.value| == |order|
    ensures r.Ok? ==> forall i :: 0 <= i < |order| ==> JoinByName(joins, order[i]) == Ok(r.value[i])
    ensures r.Err? ==> r.error == IndexError
  {
    if order == [] then Ok([])
    else
      var j :- JoinByName(joins, order[0]);
      var rest :- JoinList(joins, order[1..]);
      Ok([j] + rest)
  }

  // ---------------------------------------------------------------------------
  // add_join_to_query
  // ---------------------------------------------------------------------------

  /** `getattr(ring.db, table)`: a table without a model raises AttributeError. */
  function ModelOf(db: Models, table: string): (r: Result<set<string>>)
    ensures r.Ok? <==> table in db
  {
    if table in db then Ok(db[table])
    else Err(AttributeError("'db' object has no attribute '" + table + "'"))
  }

  /**
   * `add_join_to_query`: the table to add is `to` if it is new, else `from_`
   * if that is new (through the `reverse_` relationship); when both are
   * already joined nothing happens. The relationship attribute is looked up
   * on the `from_` model first, then on the `to` model; when neither has it
   * nothing is joined.
   */
  function AddJoin(query: Query, j: Join, db: Models, added: set<string>): Result<(Query, Option<string>)>
  {
    if j.toTable in added && j.fromTable in added then Ok((query, None))
    else
      var add := if j.toTable !in added then j.toTable else j.fromTable;
      var prefix := if j.toTable !in added then "" else "reverse_";
      var fromModel :- ModelOf(db, j.fromTable);
      var toModel :- ModelOf(db, j.toTable);
      var attribute := prefix + j.name;
      if attribute in fromModel then Ok((query + [Clause(j.toTable, j.fromTable, attribute)], Some(add)))
      else if attribute in toModel then Ok((query + [Clause(j.fromTable, j.toTable, attribute)], Some(add)))
      else Ok((query, None))
  }

  /**
   * The cases of `add_join_to_query`: a table is reported exactly when one
   * clause is added; it is then a new endpoint of the join, and the
   * relationship used is the forward one exactly when `to` was new. Two
   * joined endpoints, or a relationship neither model defines, leave the
   * query as it was; a missing model is an AttributeError.
   */
  lemma AddJoinCases(query: Query, j: Join, db: Models, added: set<string>)
    ensures j.toTable in added && j.fromTable in added ==> AddJoin(query, j, db, added) == Ok((query, None))
    ensures AddJoin(query, j, db, added).Err? <==>
      !(j.toTable in added && j.fromTable in added) && (j.fromTable !in db || j.toTable !in db)
    ensures AddJoin(query, j, db, added).Ok? ==>
      var (q, t) := AddJoin(query, j, db, added).value;
      (t.None? <==> q == query) &&
      (t.Some? ==>
        t.value !in added && (t.value == j.toTable || t.value == j.fromTable) &&
        (j.toTable !in added ==> t.value == j.toTable) &&
        |q| == |query| + 1 && q[..|query|] == query &&
        q[|query|].attribute == (if j.toTable !in added then j.name else "reverse_" + j.name) &&
        {q[|query|].target, q[|query|].owner} == {j.fromTable, j.toTable})
  {
    var r := AddJoin(query, j, db, added);
    if r.Ok? && r.value.1.Some? {
      assert r.value.0[..|query|] == query;
    }
  }

  // ---------------------------------------------------------------------------
  // add_joins_to_query
  // ---------------------------------------------------------------------------

  /** `any(t in tables for t in [join.from_, join.to])`. */
  predicate Touches(j: Join, tables: set<string>)
  {
    j.fromTable in tables || j.toTable in tables
  }

  /**
   * The inner `while True` loop: the index of the first pending join that
   * touches a joined table; running off the end of the list raises
   * IndexError.
   */
  function FirstEligible(pending: seq<Join>, tables: set<string>): (r: Result<nat>)
    ensures r.Ok? ==> r.value < |pending| && Touches(pending[r.value], tables)
    ensures r.Ok? ==> forall k :: 0 <= k < r.value ==> !Touches(pending[k], tables)
    ensures r.Err? <==> forall k :: 0 <= k < |pending| ==> !Touches(pending[k], tables)
    ensures r.Err? ==> r.error == IndexError
  {
    if pending == [] then Err(IndexError)
    else if Touches(pending[0], tables) then Ok(0)
    else
      var r := FirstEligible(pending[1..], tables);
      assert forall k :: 1 <= k < |pending| ==> pending[k] == pending[1..][k - 1];
      if r.Ok? then Ok(r.value + 1) else Err(r.error)
  }

  /** The inner loop itself, scanning `idx` upward from 0. */
  method FindEligible(pending: seq<Join>, tables: set<string>) returns (r: Result<nat>)
    ensures r == FirstEligible(pending, tables)
  {
    var idx := 0;
    while idx < |pending| && !Touches(pending[idx], tables)
      invariant idx <= |pending|
      invariant forall k :: 0 <= k < idx ==> !Touches(pending[k], tables)
    {
      idx := idx + 1;
    }
    if idx == |pending| {
      return Err(IndexError);
    }
    return Ok(idx);
  }

  /** `join_list.pop(idx)`. */
  function Remove(s: seq<Join>, idx: nat): (r: seq<Join>)
    requires idx < |s|
    ensures multiset(r) + multiset{s[idx]} == multiset(s)
  {
    assert s == s[..idx] + [s[idx]] + s[idx + 1..];
    s[..idx] + s[idx + 1..]
  }

  /** `if new_table: tables.add(new_table)`: an empty name is falsy. */
  function Grow(tables: set<string>, t: Option<string>): set<string>
  {
    if t.Some? && t.value != "" then tables + {t.value} else tables
  }

  /** One join applied: the join and the joined tables at the time it was picked. */
  datatype Pick = Pick(join: Join, before: set<string>)

  /** The query and the joined tables at the end, and the joins in the order they were applied. */
  datatype Outcome = Outcome(query: Query, tables: set<string>, picks: seq<Pick>)

  /** The outer loop of `add_joins_to_query` over the pending joins. */
  function JoinsSpec(query: Query, pending: seq<Join>, tables: set<string>, db: Models): Result<Outcome>
    decreases |pending|
  {
    if pending == [] then Ok(Outcome(query, tables, []))
    else
      var idx :- FirstEligible(pending, tables);
      var step :- AddJoin(query, pending[idx], db, tables);
      var rest :- JoinsSpec(step.0, Remove(pending, idx), Grow(tables, step.1), db);
      Ok(rest.(picks := [Pick(pending[idx], tables)] + rest.picks))
  }

  /** Two runs of the loop end alike: the same error, or the same query and tables. */
  predicate Same(a: Result<Outcome>, b: Result<Outcome>)
  {
    (a.Ok? <==> b.Ok?) && (a.Err? ==> a.error == b.error) &&
    (a.Ok? ==> a.value.query == b.value.query && a.value.tables == b.value.tables)
  }

  /** The method's result and final tables agree with the loop's specification. */
  predicate Ends(r: Result<Query>, tables: set<string>, s: Result<Outcome>)
  {
    (r.Ok? <==> s.Ok?) && (r.Err? ==> r.error == s.error) &&
    (r.Ok? ==> r.value == s.value.query && tables == s.value.tables)
  }

  /** One turn of the outer loop: pick the join at `idx`, apply it, continue with the rest. */
  lemma JoinsTurn(query: Query, pending: seq<Join>, tables: set<string>, db: Models, idx: nat)
    requires FirstEligible(pending, tables) == Ok(idx)
    ensures AddJoin(query, pending[idx], db, tables).Err? ==>
      JoinsSpec(query, pending, tables, db) == Err(AddJoin(query, pending[idx], db, tables).error)
    ensures AddJoin(query, pending[idx], db, tables).Ok? ==>
      var step := AddJoin(query, pending[idx], db, tables).value;
      Same(JoinsSpec(step.0, Remove(pending, idx), Grow(tables, step.1), db), JoinsSpec(query, pending, tables, db))
  {
  }

  predicate Unique(s: seq<string>)
  {
    forall i, j :: 0 <= i < j < |s| ==> s[i] != s[j]
  }

  /**
   * `add_joins_to_query(query, query_args, ring)`, with `order` the order in
   * which the set `joins_todo` is iterated. The joined tables are added to
   * `query_args.tables` as the loop goes (and stay added when a later join
   * fails); nothing else of the record changes.
   */
  method AddJoinsToQuery(query: Query, qa: QueryArguments, joins: seq<Join>, order: seq<string>, db: Models)
    returns (r: Result<Query>)
    requires Unique(order) && forall n :: n in order <==> n in qa.joinsTodo
    modifies qa
    ensures JoinList(joins, order).Err? ==> r == Err(IndexError) && qa.tables == old(qa.tables)
    ensures JoinList(joins, order).Ok? ==>
      Ends(r, qa.tables, JoinsSpec(query, JoinList(joins, order).value, old(qa.tables), db))
    ensures qa.Snap().(tables := old(qa.tables)) == old(qa.Snap())
  {
    var list := JoinList(joins, order);
    if list.Err? {
      return Err(list.error);
    }
    var pending := list.value;
    var q := query;
    ghost var spec := JoinsSpec(query, pending, qa.tables, db);
    while pending != []
      invariant Same(JoinsSpec(q, pending, qa.tables, db), spec)
      invariant qa.Snap().(tables := old(qa.tables)) == old(qa.Snap())
      decreases |pending|
    {
      var tables := qa.tables;
      var found := FindEligible(pending, tables);
      if found.Err? {
        return Err(found.error);
      }
      var idx := found.value;
      JoinsTurn(q, pending, tables, db, idx);
      var step := AddJoin(q, pending[idx], db, tables);
      if step.Err? {
        return Err(step.error);
      }
      pending := Remove(pending, idx);
      q := step.value.0;
      qa.tables := Grow(tables, step.value.1);
    }
    r := Ok(q);
  }

  // ---------------------------------------------------------------------------
  // What the join loop guarantees
  // ---------------------------------------------------------------------------

  function Picked(ps: seq<Pick>): (js: seq<Join>)
    ensures |js| == |ps| && forall i :: 0 <= i < |ps| ==> js[i] == ps[i].join
  {
    seq(|ps|, i requires 0 <= i < |ps| => ps[i].join)
  }

  /** Every pending join is applied exactly once: the picks are a permutation of the list. */
  lemma {:induction false} JoinsEachOnce(query: Query, pending: seq<Join>, tables: set<string>, db: Models)
    requires JoinsSpec(query, pending, tables, db).Ok?
    ensures multiset(Picked(JoinsSpec(query, pending, tables, db).value.picks)) == multiset(pending)
    decreases |pending|
  {
    if pending != [] {
      JoinsCons(query, pending, tables, db);
      var idx := FirstEligible(pending, tables).value;
      var step := AddJoin(query, pending[idx], db, tables).value;
      var rest := JoinsSpec(step.0, Remove(pending, idx), Grow(tables, step.1), db).value;
      JoinsEachOnce(step.0, Remove(pending, idx), Grow(tables, step.1), db);
      assert Picked([Pick(pending[idx], tables)] + rest.picks) == [pending[idx]] + Picked(rest.picks);
    }
  }

  /** Unfolds one turn of a successful loop: the first pick, then the picks of the rest. */
  lemma JoinsCons(query: Query, pending: seq<Join>, tables: set<string>, db: Models)
    requires pending != [] && JoinsSpec(query, pending, tables, db).Ok?
    ensures var idx := FirstEligible(pending, tables).value;
      var step := AddJoin(query, pending[idx], db, tables).value;
      var o1 := JoinsSpec(step.0, Remove(pending, idx), Grow(tables, step.1), db);
      o1.Ok? && Touches(pending[idx], tables) &&
      JoinsSpec(query, pending, tables, db).value == o1.value.(picks := [Pick(pending[idx], tables)] + o1.value.picks)
  {
  }

  /** Each join is picked while one of its tables is joined, and the joined tables only grow from pick to pick. */
  lemma {:induction false} JoinsTouching(query: Query, pending: seq<Join>, tables: set<string>, db: Models)
    requires JoinsSpec(query, pending, tables, db).Ok?
    ensures var o := JoinsSpec(query, pending, tables, db).value;
      (forall k :: 0 <= k < |o.picks| ==> Touches(o.picks[k].join, o.picks[k].before)) &&
      (o.picks != [] ==> o.picks[0].before == tables) &&
      (forall k :: 0 <= k < |o.picks| - 1 ==> o.picks[k].before <= o.picks[k + 1].before)
    decreases |pending|
  {
    if pending != [] {
      JoinsCons(query, pending, tables, db);
      var idx := FirstEligible(pending, tables).value;
      var step := AddJoin(query, pending[idx], db, tables).value;
      var t1 := Grow(tables, step.1);
      var o := JoinsSpec(query, pending, tables, db).value;
      var o1 := JoinsSpec(step.0, Remove(pending, idx), t1, db).value;
      JoinsTouching(step.0, Remove(pending, idx), t1, db);
      forall k | 0 <= k < |o.picks| - 1 ensures o.picks[k].before <= o.picks[k + 1].before {
        if k > 0 {
          assert o.picks[k] == o1.picks[k - 1] && o.picks[k + 1] == o1.picks[k];
        }
      }
      forall k | 0 <= k < |o.picks| ensures Touches(o.picks[k].join, o.picks[k].before) {
        if k > 0 {
          assert o.picks[k] == o1.picks[k - 1];
        }
      }
    }
  }

  /** The tables joined at every pick lie between the initial and the final tables. */
  lemma {:induction false} JoinsGrow(query: Query, pending: seq<Join>, tables: set<string>, db: Models)
    requires JoinsSpec(query, pending, tables, db).Ok?
    ensures var o := JoinsSpec(query, pending, tables, db).value;
      tables <= o.tables && forall k :: 0 <= k < |o.picks| ==> tables <= o.picks[k].before <= o.tables
    decreases |pending|
  {
    if pending != [] {
      JoinsCons(query, pending, tables, db);
      var idx := FirstEligible(pending, tables).value;
      var step := AddJoin(query, pending[idx], db, tables).value;
      var t1 := Grow(tables, step.1);
      var o := JoinsSpec(query, pending, tables, db).value;
      var o1 := JoinsSpec(step.0, Remove(pending, idx), t1, db).value;
      JoinsGrow(step.0, Remove(pending, idx), t1, db);
      forall k | 0 <= k < |o.picks| ensures tables <= o.picks[k].before <= o.tables {
        if k > 0 {
          assert o.picks[k] == o1.picks[k - 1];
        }
      }
    }
  }

  /** Every table the loop adds is an endpoint of one of the pending joins. */
  lemma {:induction false} JoinsEndpoints(query: Query, pending: seq<Join>, tables: set<string>, db: Models)
    requires JoinsSpec(query, pending, tables, db).Ok?
    ensures forall t :: t in JoinsSpec(query, pending, tables, db).value.tables && t !in tables ==>
      exists j :: j in pending && (t == j.fromTable || t == j.toTable)
    decreases |pending|
  {
    if pending != [] {
      JoinsCons(query, pending, tables, db);
      var idx := FirstEligible(pending, tables).value;
      var j := pending[idx];
      var step := AddJoin(query, j, db, tables).value;
      var rest := Remove(pending, idx);
      var t1 := Grow(tables, step.1);
      JoinsEndpoints(step.0, rest, t1, db);
      AddJoinCases(query, j, db, tables);
      forall t | t in JoinsSpec(query, pending, tables, db).value.tables && t !in tables
        ensures exists i :: i in pending && (t == i.fromTable || t == i.toTable)
      {
        assert multiset(rest) + multiset{j} == multiset(pending);
        if t in t1 {
          assert j in multiset(pending);
        } else {
          var i :| i in rest && (t == i.fromTable || t == i.toTable);
          assert i in multiset(pending);
        }
      }
    }
  }

  /** The loop only appends to the query, at most one clause per join. */
  lemma {:induction false} JoinsAppend(query: Query, pending: seq<Join>, tables: set<string>, db: Models)
    requires JoinsSpec(query, pending, tables, db).Ok?
    ensures var q := JoinsSpec(query, pending, tables, db).value.query;
      |query| <= |q| <= |query| + |pending| && q[..|query|] == query
    decreases |pending|
  {
    if pending != [] {
      JoinsCons(query, pending, tables, db);
      var idx := FirstEligible(pending, tables).value;
      var step := AddJoin(query, pending[idx], db, tables).value;
      AddJoinCases(query, pending[idx], db, tables);
      JoinsAppend(step.0, Remove(pending, idx), Grow(tables, step.1), db);
      var q := JoinsSpec(query, pending, tables, db).value.query;
      assert q[..|step.0|][..|query|] == q[..|query|];
    }
  }

  /**
   * The loop fails with IndexError as soon as no pending join touches the
   * joined tables; in particular a query with no table yet cannot join
   * anything.
   */
  lemma JoinsStuck(query: Query, pending: seq<Join>, tables: set<string>, db: Models)
    requires pending != [] && forall k :: 0 <= k < |pending| ==> !Touches(pending[k], tables)
    ensures JoinsSpec(query, pending, tables, db) == Err(IndexError)
  {
  }

  // ---------------------------------------------------------------------------
  // The join pairs of update_query_arguments
  // ---------------------------------------------------------------------------

  /** `filter(lambda f: f in entity names, froms)`: the froms that are entities of the ring, in order. */
  function EntityFroms(froms: seq<string>, entities: set<string>): (r: seq<string>)
    ensures forall x :: x in r <==> x in froms && x in entities
    ensures |r| <= |froms|
  {
    if froms == [] then []
    else (if froms[0] in entities then [froms[0]] else []) + EntityFroms(froms[1..], entities)
  }

  /** The joins between `a` and each of `rest`. */
  function RowJoins(a: string, rest: seq<string>, between: (string, string) -> set<string>): set<string>
    decreases |rest|
  {
    if rest == [] then {} else between(a, rest[0]) + RowJoins(a, rest[1..], between)
  }

  /** The joins between the two entities of every pair of `combinations(es, 2)`. */
  function PairJoins(es: seq<string>, between: (string, string) -> set<string>): set<string>
    decreases |es|
  {
    if es == [] then {} else RowJoins(es[0], es[1..], between) + PairJoins(es[1..], between)
  }

  lemma {:induction false} RowJoinsIff(a: string, rest: seq<string>, between: (string, string) -> set<string>, x: string)
    ensures x in RowJoins(a, rest, between) <==> exists k :: 0 <= k < |rest| && x in between(a, rest[k])
    decreases |rest|
  {
    if rest != [] {
      RowJoinsIff(a, rest[1..], between, x);
      if exists k :: 0 <= k < |rest| && x in between(a, rest[k]) {
        var k :| 0 <= k < |rest| && x in between(a, rest[k]);
        if k > 0 {
          assert rest[1..][k - 1] == rest[k];
        }
      }
      if exists k :: 0 <= k < |rest[1..]| && x in between(a, rest[1..][k]) {
        var k :| 0 <= k < |rest[1..]| && x in between(a, rest[1..][k]);
        assert rest[k + 1] == rest[1..][k];
      }
    }
  }

  /**
   * A join is collected exactly when it lies between the entities at two
   * positions `i < j` of the list, as `itertools.combinations` pairs them.
   */
  lemma {:induction false} PairJoinsIff(es: seq<string>, between: (string, string) -> set<string>, x: string)
    ensures x in PairJoins(es, between) <==>
      exists i, j :: 0 <= i < j < |es| && x in between(es[i], es[j])
    decreases |es|
  {
    if es != [] {
      var tail := es[1..];
      PairJoinsIff(tail, between, x);
      RowJoinsIff(es[0], tail, between, x);
      if exists i, j :: 0 <= i < j < |es| && x in between(es[i], es[j]) {
        var i, j :| 0 <= i < j < |es| && x in between(es[i], es[j]);
        if i == 0 {
          assert tail[j - 1] == es[j];
        } else {
          assert tail[i - 1] == es[i] && tail[j - 1] == es[j];
        }
      }
      if exists k :: 0 <= k < |tail| && x in between(es[0], tail[k]) {
        var k :| 0 <= k < |tail| && x in between(es[0], tail[k]);
        assert es[k + 1] == tail[k];
      }
      if exists i, j :: 0 <= i < j < |tail| && x in between(tail[i], tail[j]) {
        var i, j :| 0 <= i < j < |tail| && x in between(tail[i], tail[j]);
        assert es[i + 1] == tail[i] && es[j + 1] == tail[j];
      }
    }
  }

  /**
   * The last loop of `update_query_arguments`: the joins between every pair
   * of ring entities among the froms are added to `joins_todo`;
   * `between(a, b)` stands for `ring.get_joins_between_entities(a, b)`.
   */
  method AddPairJoins(qa: QueryArguments, entities: set<string>, between: (string, string) -> set<string>)
    modifies qa
    ensures qa.joinsTodo == old(qa.joinsTodo) + PairJoins(EntityFroms(old(qa.froms), entities), between)
    ensures qa.Snap().(joinsTodo := old(qa.joinsTodo)) == old(qa.Snap())
  {
    var es := EntityFroms(qa.froms, entities);
    ghost var target := qa.joinsTodo + PairJoins(es, between);
    var i := 0;
    while i < |es|
      invariant i <= |es|
      invariant qa.joinsTodo + PairJoins(es[i..], between) == target
      invariant qa.Snap().(joinsTodo := old(qa.joinsTodo)) == old(qa.Snap())
    {
      assert es[i..][0] == es[i] && es[i..][1..] == es[i + 1..];
      var todo := qa.joinsTodo;
      var j := i + 1;
      while j < |es|
        invariant i + 1 <= j <= |es|
        invariant todo + RowJoins(es[i], es[j..], between) == qa.joinsTodo + RowJoins(es[i], es[i + 1..], between)
      {
        assert es[j..][0] == es[j] && es[j..][1..] == es[j + 1..];
        todo := todo + between(es[i], es[j]);
        j := j + 1;
      }
      qa.joinsTodo := todo;
      i := i + 1;
    }
  }
}
