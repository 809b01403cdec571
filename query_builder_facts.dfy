/**
 * What `build_query_arguments_from_sqr_plan` and its helpers guarantee,
 * proved about the specification functions of `QueryBuilder`.
 */
module QueryBuilderFacts {

  import opened Wrappers
  import opened Dicts
  import opened Ontology
  import opened Steps
  import opened SqrFields
  import opened QueryArgs
  import opened QueryBuilder
  import opened OpNames

  // ---------------------------------------------------------------------------
  // get_parent_subplan
  // ---------------------------------------------------------------------------

  /**
   * The aliases found are none exactly when no subplan holds the step, two
   * or more exactly when two subplans do, and the first is the alias of a
   * subplan that holds it.
   */
  lemma {:induction false} ContainingShape(subplans: Dict<Plan>, ref: string)
    ensures |Containing(subplans, ref)| == 0 <==> forall i :: !HoldsAt(subplans, i, ref)
    ensures |Containing(subplans, ref)| >= 2 <==>
      exists i, j :: i < j && HoldsAt(subplans, i, ref) && HoldsAt(subplans, j, ref)
    ensures |Containing(subplans, ref)| >= 1 ==>
      exists i :: HoldsAt(subplans, i, ref) && subplans[i].0 == Containing(subplans, ref)[0]
  {
    if subplans != [] {
      var tail := subplans[1..];
      ContainingShape(tail, ref);
      forall i | 0 <= i ensures HoldsAt(tail, i, ref) <==> HoldsAt(subplans, i + 1, ref) {
        if 0 <= i < |tail| {
          assert tail[i] == subplans[i + 1];
        }
      }
      if exists i, j :: i < j && HoldsAt(subplans, i, ref) && HoldsAt(subplans, j, ref) {
        var i, j :| i < j && HoldsAt(subplans, i, ref) && HoldsAt(subplans, j, ref);
        if i > 0 {
          assert HoldsAt(tail, i - 1, ref) && HoldsAt(tail, j - 1, ref);
        } else {
          assert HoldsAt(tail, j - 1, ref);
        }
      }
      if exists i, j :: i < j && HoldsAt(tail, i, ref) && HoldsAt(tail, j, ref) {
        var i, j :| i < j && HoldsAt(tail, i, ref) && HoldsAt(tail, j, ref);
        assert HoldsAt(subplans, i + 1, ref) && HoldsAt(subplans, j + 1, ref);
      }
      if HasKey(subplans[0].1, ref) {
        assert HoldsAt(subplans, 0, ref);
        if |Containing(tail, ref)| >= 1 {
          var j :| HoldsAt(tail, j, ref) && tail[j].0 == Containing(tail, ref)[0];
          assert HoldsAt(subplans, j + 1, ref);
        }
      } else {
        if |Containing(tail, ref)| >= 1 {
          var j :| HoldsAt(tail, j, ref) && tail[j].0 == Containing(tail, ref)[0];
          assert HoldsAt(subplans, j + 1, ref) && subplans[j + 1].0 == Containing(subplans, ref)[0];
        }
        forall i | HoldsAt(subplans, i, ref) ensures HoldsAt(tail, i - 1, ref) {
        }
      }
    }
  }

  /**
   * `get_parent_subplan`: an unknown current alias is a KeyError; the
   * current subplan holding the step gives None; otherwise two holders are
   * ambiguous, none gives None, and a single holder is the answer.
   */
  lemma ParentSubplanCases(ref: string, current: string, subplans: Dict<Plan>)
    ensures Get(subplans, current).None? ==> ParentSubplan(ref, current, subplans) == Err(KeyError(current))
    ensures Get(subplans, current).Some? && HasKey(Get(subplans, current).value, ref) ==>
      ParentSubplan(ref, current, subplans) == Ok(None)
    ensures Get(subplans, current).Some? && !HasKey(Get(subplans, current).value, ref) ==>
      ((ParentSubplan(ref, current, subplans) == Err(ValueError("Ambiguous parent plan"))) <==>
        exists i, j :: i < j && HoldsAt(subplans, i, ref) && HoldsAt(subplans, j, ref))
    ensures Get(subplans, current).Some? && !HasKey(Get(subplans, current).value, ref) ==>
      (ParentSubplan(ref, current, subplans) == Ok(None) <==> forall i :: !HoldsAt(subplans, i, ref))
    ensures ParentSubplan(ref, current, subplans).Ok? && ParentSubplan(ref, current, subplans).value.Some? ==>
      exists i :: HoldsAt(subplans, i, ref) && subplans[i].0 == ParentSubplan(ref, current, subplans).value.value &&
        forall j :: HoldsAt(subplans, j, ref) ==> j == i
  {
    ContainingShape(subplans, ref);
    var r := ParentSubplan(ref, current, subplans);
    if r.Ok? && r.value.Some? {
      var i :| HoldsAt(subplans, i, ref) && subplans[i].0 == Containing(subplans, ref)[0];
      forall j | HoldsAt(subplans, j, ref) ensures j == i {
      }
    }
  }

  /** In a dictionary the parent found is never the current subplan. */
  lemma ParentIsOther(ref: string, current: string, subplans: Dict<Plan>)
    requires DistinctKeys(subplans)
    requires ParentSubplan(ref, current, subplans).Ok? && ParentSubplan(ref, current, subplans).value.Some?
    ensures ParentSubplan(ref, current, subplans).value.value != current
  {
    ParentSubplanCases(ref, current, subplans);

  }

  // ---------------------------------------------------------------------------
  // _contains_aggregate_operator
  // ---------------------------------------------------------------------------

  lemma {:induction false} AnyContainsAll(f: SQRField, i: nat)
    requires f.OpField? && i <= |f.arguments|
    requires forall k :: i <= k < |f.arguments| ==>
      f.arguments[k].Sub? && ContainsAggregate(f.arguments[k].field).Ok?
    ensures AnyContains(f, i) ==
      Ok(exists k :: i <= k < |f.arguments| && ContainsAggregate(f.arguments[k].field) == Ok(true))
    decreases |f.arguments| - i
  {
    if i < |f.arguments| {
      AnyContainsAll(f, i + 1);
    }
  }

  /**
   * A condition built with and/or/not whose operands are all fields that
   * can be checked holds an aggregate exactly when one of them does.
   */
  lemma ConnectiveContains(f: SQRField)
    requires f.OpField? && IsConnective(f.kind)
    requires forall k :: 0 <= k < |f.arguments| ==>
      f.arguments[k].Sub? && ContainsAggregate(f.arguments[k].field).Ok?
    ensures ContainsAggregate(f) ==
      Ok(exists k :: 0 <= k < |f.arguments| && ContainsAggregate(f.arguments[k].field) == Ok(true))
  {
    AnyContainsAll(f, 0);
  }

  /**
   * In any other condition an operand that is not an analysis record of this
   * subplan (a parent's column, an entity attribute, a plain string) never
   * changes the answer: cross-subplan aggregates do not make a `having`.
   */
  lemma OtherOperandIgnored(s: string, n: string, kind: string, args: seq<Operand>, x: Operand)
    requires !IsConnective(kind)
    requires !(x.Sub? && IsAnalysisOperation(x.field))
    ensures ContainsAggregate(OpField(s, n, kind, args + [x])) == ContainsAggregate(OpField(s, n, kind, args))
  {
    var longer := args + [x];
    assert forall k :: 0 <= k < |args| ==> longer[k] == args[k];
    assert longer[|args|] == x;
  }

  /** So a wrapped parent column never counts, whatever it wraps. */
  lemma WrappedNeverCounts(s: string, n: string, kind: string, args: seq<Operand>, a: string, g: SQRField)
    requires !IsConnective(kind)
    ensures ContainsAggregate(OpField(s, n, kind, args + [Sub(WrappedField(a, g))])) ==
      ContainsAggregate(OpField(s, n, kind, args))
  {
    OtherOperandIgnored(s, n, kind, args, Sub(WrappedField(a, g)));
  }

  // ---------------------------------------------------------------------------
  // The record a subplan builds stays consistent
  // ---------------------------------------------------------------------------

  /** Every field in `sqrfields` is stored under its own column name, once. */
  predicate NamedFields(d: Dict<SQRField>)
  {
    DistinctKeys(d) && forall i :: 0 <= i < |d| ==> ColumnName(d[i].1) == Ok(d[i].0)
  }

  /** Every name in the select list, the group-bys and the sorts has its field in `sqrfields`. */
  predicate Listed(q: Snapshot)
  {
    (forall i :: 0 <= i < |q.select| ==> HasKey(q.sqrfields, q.select[i])) &&
    (forall i :: 0 <= i < |q.groupBys| ==> HasKey(q.sqrfields, q.groupBys[i])) &&
    (forall i :: 0 <= i < |q.sortAttributes| ==> HasKey(q.sqrfields, q.sortAttributes[i].attribute))
  }

  /** A stored filter holds no aggregate; a stored having holds one. */
  predicate Placed(q: Snapshot)
  {
    (q.filter.Where? ==> ContainsAggregate(q.filter.field) == Ok(false)) &&
    (q.having.Where? ==> ContainsAggregate(q.having.field) == Ok(true))
  }

  predicate Consistent(q: Snapshot)
  {
    NamedFields(q.sqrfields) && Listed(q) && Placed(q)
  }

  lemma FreshConsistent()
    ensures Consistent(Fresh)
  {
  }

  /** Storing a field under its column name keeps `sqrfields` named and every key present. */
  lemma PutNamed(d: Dict<SQRField>, n: string, f: SQRField)
    requires NamedFields(d) && ColumnName(f) == Ok(n)
    ensures NamedFields(Put(d, n, f))
    ensures HasKey(Put(d, n, f), n)
    ensures forall j :: HasKey(d, j) ==> HasKey(Put(d, n, f), j)
  {
    var p := Put(d, n, f);
    PutDistinct(d, n, f);
    PutItems(d, n, f);
    forall i | 0 <= i < |p| ensures ColumnName(p[i].1) == Ok(p[i].0) {
      assert p[i] in p;
    }
    PutGet(d, n, f, n);
    forall j | HasKey(d, j) ensures HasKey(p, j) {
      var i :| 0 <= i < |d| && d[i].0 == j;
      assert p[i].0 == j;
    }
  }

  lemma {:induction false} GroupbyConsistent(q: Snapshot, fields: FieldMap, args: seq<string>)
    requires Consistent(q) && GroupbySpec(q, fields, args).Ok?
    ensures Consistent(GroupbySpec(q, fields, args).value)
    decreases |args|
  {
    if args != [] {
      var f := fields[args[0]];
      var n := ColumnName(f).value;
      PutNamed(q.sqrfields, n, f);
      GroupbyConsistent(q.(groupBys := q.groupBys + [n], sqrfields := Put(q.sqrfields, n, f)), fields, args[1..]);
    }
  }

  lemma {:induction false} SelectConsistent(q: Snapshot, fields: FieldMap, args: seq<string>)
    requires Consistent(q) && SelectSpec(q, fields, args).Ok?
    ensures Consistent(SelectSpec(q, fields, args).value)
    decreases |args|
  {
    if args != [] {
      var f := fields[args[0]];
      var n := ColumnName(f).value;
      PutNamed(q.sqrfields, n, f);
      SelectConsistent(q.(sqrfields := Put(q.sqrfields, n, f), select := q.select + [n]), fields, args[1..]);
    }
  }

  lemma {:induction false} SortConsistent(q: Snapshot, fields: FieldMap, args: seq<string>)
    requires Consistent(q) && SortSpec(q, fields, args).Ok?
    ensures Consistent(SortSpec(q, fields, args).value)
    decreases |args|
  {
    if |args| >= 2 {
      var f := fields[args[0]];
      var n := ColumnName(f).value;
      PutNamed(q.sqrfields, n, f);
      SortConsistent(q.(sortAttributes := q.sortAttributes + [SortAttribute(n, args[1])],
                        sqrfields := Put(q.sqrfields, n, f)), fields, args[2..]);
    }
  }

  lemma ReturnArgConsistent(q: Snapshot, sub: Plan, fields: FieldMap, a: string)
    requires Consistent(q) && ReturnArgSpec(q, sub, fields, a).Ok?
    ensures Consistent(ReturnArgSpec(q, sub, fields, a).value)
  {
    var s := StepOf(sub, a).value;
    if !IsBoolean(s.operation) && IsSort(s.operation) {
      SortConsistent(q, fields, s.args);
    }
  }

  lemma {:induction false} ReturnArgsConsistent(q: Snapshot, sub: Plan, fields: FieldMap, args: seq<string>)
    requires Consistent(q) && ReturnArgsSpec(q, sub, fields, args).Ok?
    ensures Consistent(ReturnArgsSpec(q, sub, fields, args).value)
    decreases |args|
  {
    if args != [] {
      ReturnArgConsistent(q, sub, fields, args[0]);
      ReturnArgsConsistent(ReturnArgSpec(q, sub, fields, args[0]).value, sub, fields, args[1..]);
    }
  }

  lemma ReturnConsistent(q: Snapshot, sub: Plan, fields: FieldMap, step: Step)
    requires Consistent(q) && ReturnSpec(q, sub, fields, step).Ok?
    ensures Consistent(ReturnSpec(q, sub, fields, step).value)
  {
    var collect := StepOf(sub, step.args[0]).value;
    SelectConsistent(q, fields, collect.args);
    ReturnArgsConsistent(SelectSpec(q, fields, collect.args).value, sub, fields, step.args[1..]);
  }

  /** Every step keeps the record consistent. */
  lemma StepConsistent(plan: AnalysisPlan, alias: string, sub: Plan, done: map<string, FieldMap>,
                       st: Built, ref: string, step: Step)
    requires Consistent(st.q) && StepSpec(plan, alias, sub, done, st, ref, step).Ok?
    ensures Consistent(StepSpec(plan, alias, sub, done, st, ref, step).value.q)
  {
    match BranchOf(step.operation)
    case GroupbyBranch => GroupbyConsistent(st.q, st.fields, step.args);
    case ReturnBranch => ReturnConsistent(st.q, sub, st.fields, step);
    case RetrievalBranch => RetrieveConsistent(plan, alias, sub, done, st, ref, step);
    case RecordBranch => assert StepSpec(plan, alias, sub, done, st, ref, step).value.q == st.q;
    case PassBranch => assert StepSpec(plan, alias, sub, done, st, ref, step).value.q == st.q;
    case AnalysisBranch => assert StepSpec(plan, alias, sub, done, st, ref, step).value.q == st.q;
    case AggregationBranch =>
    case UnhandledBranch =>
  }

  /** A retrieval step only adds froms, columns and joins the record already accounts for. */
  lemma RetrieveConsistent(plan: AnalysisPlan, alias: string, sub: Plan, done: map<string, FieldMap>,
                           st: Built, ref: string, step: Step)
    requires Consistent(st.q) && RetrieveSpec(plan, alias, sub, done, st, ref, step).Ok?
    ensures Consistent(RetrieveSpec(plan, alias, sub, done, st, ref, step).value.q)
  {
    var q := RetrieveSpec(plan, alias, sub, done, st, ref, step).value.q;
    if step.operation == "retrieve_attribute" {
      AttributeCases(plan, alias, sub, done, st, ref, step);
    }
    assert q == st.q.(froms := q.froms);
    FromsKeepConsistent(st.q, q.froms);
  }

  /** Consistency does not depend on the froms. */
  lemma FromsKeepConsistent(q: Snapshot, froms: seq<string>)
    requires Consistent(q)
    ensures Consistent(q.(froms := froms))
  {
  }

  lemma {:induction false} SubplanConsistent(plan: AnalysisPlan, alias: string, sub: Plan,
                                             done: map<string, FieldMap>, st: Built, order: seq<string>)
    requires Consistent(st.q) && SubplanSpec(plan, alias, sub, done, st, order).Ok?
    ensures Consistent(SubplanSpec(plan, alias, sub, done, st, order).value.q)
    decreases |order|
  {
    if order != [] {
      match Get(sub, order[0])
      case None => SubplanConsistent(plan, alias, sub, done, st, order[1..]);
      case Some(step) =>
        StepConsistent(plan, alias, sub, done, st, order[0], step);
        SubplanConsistent(plan, alias, sub, done, StepSpec(plan, alias, sub, done, st, order[0], step).value, order[1..]);
    }
  }

  lemma {:induction false} BuildFromConsistent(plan: AnalysisPlan, order: seq<string>, done: map<string, FieldMap>,
                                               out: Dict<Snapshot>, items: Dict<Plan>)
    requires forall i :: 0 <= i < |out| ==> Consistent(out[i].1)
    requires BuildFrom(plan, order, done, out, items).Ok?
    ensures forall i :: 0 <= i < |BuildFrom(plan, order, done, out, items).value| ==>
      Consistent(BuildFrom(plan, order, done, out, items).value[i].1)
    decreases |items|
  {
    if items != [] {
      var alias := items[0].0;
      FreshConsistent();
      SubplanConsistent(plan, alias, items[0].1, done, Built(Fresh, map[]), order);
      var st := SubplanSpec(plan, alias, items[0].1, done, Built(Fresh, map[]), order).value;
      PutAll(out, alias, st.q);
      BuildFromConsistent(plan, order, done[alias := st.fields], Put(out, alias, st.q), items[1..]);
    }
  }

  lemma PutAll(out: Dict<Snapshot>, k: string, q: Snapshot)
    requires forall i :: 0 <= i < |out| ==> Consistent(out[i].1)
    requires Consistent(q)
    ensures forall i :: 0 <= i < |Put(out, k, q)| ==> Consistent(Put(out, k, q)[i].1)
  {
    PutItems(out, k, q);
    var p := Put(out, k, q);
    forall i | 0 <= i < |p| ensures Consistent(p[i].1) {
      assert p[i] in p;
      if p[i] != (k, q) {
        var j :| 0 <= j < |out| && out[j] == p[i];
      }
    }
  }

  /**
   * Every record the builder returns stores each field under its own
   * column name, has a field for every selected, grouped and sorted name,
   * and puts aggregate conditions in `having` and the others in `filter`.
   */
  lemma BuildConsistent(plan: AnalysisPlan, order: seq<string>)
    requires BuildSpec(plan, order).Ok?
    ensures forall i :: 0 <= i < |BuildSpec(plan, order).value| ==> Consistent(BuildSpec(plan, order).value[i].1)
  {
    BuildFromConsistent(plan, order, map[], [], plan.subplans);
  }

  // ---------------------------------------------------------------------------
  // What each loop adds, and that it changes nothing else
  // ---------------------------------------------------------------------------

  /** Every argument names a step of this subplan that has a column name. */
  predicate AllNamed(fields: FieldMap, args: seq<string>)
  {
    forall i :: 0 <= i < |args| ==> args[i] in fields && ColumnName(fields[args[i]]).Ok?
  }

  /** The groupby loop fails exactly when an argument has no field or no name. */
  lemma {:induction false} GroupbyNamesOk(q: Snapshot, fields: FieldMap, args: seq<string>)
    ensures GroupbySpec(q, fields, args).Ok? <==> AllNamed(fields, args)
    decreases |args|
  {
    if args != [] {
      var tail := args[1..];
      if args[0] in fields && ColumnName(fields[args[0]]).Ok? {
        var f := fields[args[0]];
        var n := ColumnName(f).value;
        GroupbyNamesOk(q.(groupBys := q.groupBys + [n], sqrfields := Put(q.sqrfields, n, f)), fields, tail);
        if AllNamed(fields, args) {
          assert forall i :: 0 <= i < |tail| ==> tail[i] == args[i + 1];
        } else {
          var i :| 0 <= i < |args| && !(args[i] in fields && ColumnName(fields[args[i]]).Ok?);
          assert tail[i - 1] == args[i];
        }
      }
    }
  }

  /**
   * The groupby loop appends the column names of its arguments to
   * `group_bys`, in order, and touches nothing else but `sqrfields`.
   */
  lemma {:induction false} GroupbyNames(q: Snapshot, fields: FieldMap, args: seq<string>)
    requires AllNamed(fields, args)
    ensures GroupbySpec(q, fields, args).Ok? &&
      var r := GroupbySpec(q, fields, args).value;
      |r.groupBys| == |q.groupBys| + |args| && r.groupBys[..|q.groupBys|] == q.groupBys &&
      (forall i :: 0 <= i < |args| ==> ColumnName(fields[args[i]]) == Ok(r.groupBys[|q.groupBys| + i])) &&
      r.(groupBys := q.groupBys, sqrfields := q.sqrfields) == q
    decreases |args|
  {
    GroupbyNamesOk(q, fields, args);
    if args != [] {
      var tail := args[1..];
      var f := fields[args[0]];
      var n := ColumnName(f).value;
      var q1 := q.(groupBys := q.groupBys + [n], sqrfields := Put(q.sqrfields, n, f));
      assert forall i :: 0 <= i < |tail| ==> tail[i] == args[i + 1];
      GroupbyNames(q1, fields, tail);
      var r := GroupbySpec(q, fields, args).value;
      assert r.groupBys[..|q1.groupBys|] == q1.groupBys;
      assert r.groupBys[..|q.groupBys|] == q1.groupBys[..|q.groupBys|];
      forall i | 0 <= i < |args| ensures ColumnName(fields[args[i]]) == Ok(r.groupBys[|q.groupBys| + i]) {
        if i == 0 {
          assert r.groupBys[|q.groupBys|] == q1.groupBys[|q.groupBys|];
        } else {
          assert tail[i - 1] == args[i];
        }
      }
    }
  }

  /** The select loop fails exactly when an argument has no field or no name. */
  lemma {:induction false} SelectNamesOk(q: Snapshot, fields: FieldMap, args: seq<string>)
    ensures SelectSpec(q, fields, args).Ok? <==> AllNamed(fields, args)
    decreases |args|
  {
    if args != [] {
      var tail := args[1..];
      if args[0] in fields && ColumnName(fields[args[0]]).Ok? {
        var f := fields[args[0]];
        var n := ColumnName(f).value;
        SelectNamesOk(q.(sqrfields := Put(q.sqrfields, n, f), select := q.select + [n]), fields, tail);
        if AllNamed(fields, args) {
          assert forall i :: 0 <= i < |tail| ==> tail[i] == args[i + 1];
        } else {
          var i :| 0 <= i < |args| && !(args[i] in fields && ColumnName(fields[args[i]]).Ok?);
          assert tail[i - 1] == args[i];
        }
      }
    }
  }

  /**
   * The select loop appends the column names of the collect step's
   * arguments to `select`, in order, and touches nothing else but
   * `sqrfields`.
   */
  lemma {:induction false} SelectNames(q: Snapshot, fields: FieldMap, args: seq<string>)
    requires AllNamed(fields, args)
    ensures SelectSpec(q, fields, args).Ok? &&
      var r := SelectSpec(q, fields, args).value;
      |r.select| == |q.select| + |args| && r.select[..|q.select|] == q.select &&
      (forall i :: 0 <= i < |args| ==> ColumnName(fields[args[i]]) == Ok(r.select[|q.select| + i])) &&
      r.(select := q.select, sqrfields := q.sqrfields) == q
    decreases |args|
  {
    SelectNamesOk(q, fields, args);
    if args != [] {
      var tail := args[1..];
      var f := fields[args[0]];
      var n := ColumnName(f).value;
      var q1 := q.(sqrfields := Put(q.sqrfields, n, f), select := q.select + [n]);
      assert forall i :: 0 <= i < |tail| ==> tail[i] == args[i + 1];
      SelectNames(q1, fields, tail);
      var r := SelectSpec(q, fields, args).value;
      assert r.select[..|q1.select|] == q1.select;
      assert r.select[..|q.select|] == q1.select[..|q.select|];
      forall i | 0 <= i < |args| ensures ColumnName(fields[args[i]]) == Ok(r.select[|q.select| + i]) {
        if i == 0 {
          assert r.select[|q.select|] == q1.select[|q.select|];
        } else {
          assert tail[i - 1] == args[i];
        }
      }
    }
  }

  /** Every attribute position of a sort step names a step with a column name. */
  predicate PairsNamed(fields: FieldMap, args: seq<string>)
  {
    forall k :: 0 <= k < |args| / 2 ==> args[2 * k] in fields && ColumnName(fields[args[2 * k]]).Ok?
  }

  /** The sort loop fails exactly when an attribute position has no field or no name. */
  lemma {:induction false} SortPairsOk(q: Snapshot, fields: FieldMap, args: seq<string>)
    ensures SortSpec(q, fields, args).Ok? <==> PairsNamed(fields, args)
    decreases |args|
  {
    if |args| >= 2 {
      var tail := args[2..];
      assert |tail| / 2 == |args| / 2 - 1;
      if args[0] in fields && ColumnName(fields[args[0]]).Ok? {
        var f := fields[args[0]];
        var n := ColumnName(f).value;
        SortPairsOk(q.(sortAttributes := q.sortAttributes + [SortAttribute(n, args[1])],
                       sqrfields := Put(q.sqrfields, n, f)), fields, tail);
        if PairsNamed(fields, args) {
          forall k | 0 <= k < |tail| / 2 ensures tail[2 * k] in fields && ColumnName(fields[tail[2 * k]]).Ok? {
            assert tail[2 * k] == args[2 * (k + 1)];
          }
        } else {
          var k :| 0 <= k < |args| / 2 && !(args[2 * k] in fields && ColumnName(fields[args[2 * k]]).Ok?);
          assert tail[2 * (k - 1)] == args[2 * k];
        }
      } else {
        assert args[2 * 0] == args[0];
      }
    }
  }

  /**
   * The sort loop appends one (name, direction) pair per pair of arguments,
   * in order (an odd last argument is dropped), and touches nothing else
   * but `sqrfields`.
   */
  lemma {:induction false} SortPairs(q: Snapshot, fields: FieldMap, args: seq<string>)
    requires PairsNamed(fields, args)
    ensures SortSpec(q, fields, args).Ok? &&
      var r := SortSpec(q, fields, args).value;
      |r.sortAttributes| == |q.sortAttributes| + |args| / 2 &&
      r.sortAttributes[..|q.sortAttributes|] == q.sortAttributes &&
      (forall k :: 0 <= k < |args| / 2 ==>
        ColumnName(fields[args[2 * k]]) == Ok(r.sortAttributes[|q.sortAttributes| + k].attribute) &&
        r.sortAttributes[|q.sortAttributes| + k].direction == args[2 * k + 1]) &&
      r.(sortAttributes := q.sortAttributes, sqrfields := q.sqrfields) == q
    decreases |args|
  {
    SortPairsOk(q, fields, args);
    if |args| >= 2 {
      var tail := args[2..];
      PairsNamedTail(fields, args);
      var f := fields[args[0]];
      var n := ColumnName(f).value;
      var q1 := q.(sortAttributes := q.sortAttributes + [SortAttribute(n, args[1])],
                   sqrfields := Put(q.sqrfields, n, f));
      SortPairs(q1, fields, tail);
      var r := SortSpec(q, fields, args).value;
      assert r == SortSpec(q1, fields, tail).value;
      var m := |q.sortAttributes|;
      assert r.sortAttributes[..|q1.sortAttributes|] == q1.sortAttributes;
      assert r.sortAttributes[..m] == q1.sortAttributes[..m];
      assert r.sortAttributes[m] == q1.sortAttributes[m];
      PairsShift(fields, args, r.sortAttributes, m);
    }
  }

  /** The first pair at position `m` and the remaining pairs from `m + 1` on give every pair from `m` on. */
  lemma PairsShift(fields: FieldMap, args: seq<string>, rs: seq<SortAttribute>, m: nat)
    requires |args| >= 2 && PairsNamed(fields, args) && PairsNamed(fields, args[2..]) && m + |args| / 2 <= |rs|
    requires args[0] in fields && ColumnName(fields[args[0]]) == Ok(rs[m].attribute) && rs[m].direction == args[1]
    requires forall j :: 0 <= j < |args[2..]| / 2 ==>
      ColumnName(fields[args[2..][2 * j]]) == Ok(rs[m + 1 + j].attribute) && rs[m + 1 + j].direction == args[2..][2 * j + 1]
    ensures forall k :: 0 <= k < |args| / 2 ==>
      ColumnName(fields[args[2 * k]]) == Ok(rs[m + k].attribute) && rs[m + k].direction == args[2 * k + 1]
  {
    forall k | 0 <= k < |args| / 2
      ensures ColumnName(fields[args[2 * k]]) == Ok(rs[m + k].attribute) && rs[m + k].direction == args[2 * k + 1]
    {
      if k > 0 {
        PairIndex(args, k);
        assert m + 1 + (k - 1) == m + k;
      }
    }
  }

  /** After the first pair, the remaining arguments are named at their attribute positions too. */
  lemma PairsNamedTail(fields: FieldMap, args: seq<string>)
    requires |args| >= 2 && PairsNamed(fields, args)
    ensures args[0] in fields && ColumnName(fields[args[0]]).Ok?
    ensures PairsNamed(fields, args[2..]) && |args[2..]| / 2 == |args| / 2 - 1
  {
    assert args[2 * 0] == args[0];
    var tail := args[2..];
    forall k | 0 <= k < |tail| / 2 ensures tail[2 * k] in fields && ColumnName(fields[tail[2 * k]]).Ok? {
      PairIndex(args, k + 1);
    }
  }

  /** The `k`-th pair of the arguments is the `(k - 1)`-th pair after the first. */
  lemma PairIndex(args: seq<string>, k: nat)
    requires 1 <= k < |args| / 2
    ensures args[2..][2 * (k - 1)] == args[2 * k] && args[2..][2 * (k - 1) + 1] == args[2 * k + 1]
  {
  }

  // ---------------------------------------------------------------------------
  // retrieve_attribute
  // ---------------------------------------------------------------------------

  /** The entity argument is the return step of another, named subplan. */
  predicate FromParent(plan: AnalysisPlan, alias: string, a0: string)
  {
    var p := ParentSubplan(a0, alias, plan.subplans);
    p.Ok? && p.value.Some? && p.value.value != "" &&
    HasKey(plan.steps, a0) && IsReturn(Get(plan.steps, a0).value.operation)
  }

  /**
   * A resolved attribute step stores one field under its own ref and
   * changes no other field and nothing of the record but the froms. Over a
   * parent's return step it wraps that parent's field for the second
   * argument and the parent is then among the froms, added at most once;
   * otherwise it is the attribute (second argument) of the entity the
   * first argument's step of this subplan retrieved, and the froms stay.
   */
  lemma AttributeCases(plan: AnalysisPlan, alias: string, sub: Plan, done: map<string, FieldMap>,
                       st: Built, ref: string, step: Step)
    requires AttributeSpec(plan, alias, sub, done, st, ref, step).Ok?
    ensures var r := AttributeSpec(plan, alias, sub, done, st, ref, step).value;
      |step.args| >= 2 && ref in r.fields && r.fields == st.fields[ref := r.fields[ref]] &&
      r.q.(froms := st.q.froms) == st.q
    ensures var r := AttributeSpec(plan, alias, sub, done, st, ref, step).value;
      FromParent(plan, alias, step.args[0]) ==>
        var p := ParentSubplan(step.args[0], alias, plan.subplans).value.value;
        p in done && step.args[1] in done[p] &&
        r.fields[ref] == WrappedField(alias, done[p][step.args[1]]) &&
        p in r.q.froms && (r.q.froms == st.q.froms || (p !in st.q.froms && r.q.froms == st.q.froms + [p]))
    ensures var r := AttributeSpec(plan, alias, sub, done, st, ref, step).value;
      !FromParent(plan, alias, step.args[0]) ==>
        HasKey(sub, step.args[0]) && Get(sub, step.args[0]).value.args != [] &&
        r.fields[ref] == EntityField(alias, Get(sub, step.args[0]).value.args[0], step.args[1]) &&
        r.q.froms == st.q.froms
  {
  }

  // ---------------------------------------------------------------------------
  // The if-chain over the ontology
  // ---------------------------------------------------------------------------

  /** The branch each table of the ontology leads to. */
  function CategoryBranch(c: Category): Branch
  {
    match c
    case RetrievalOps => RetrievalBranch
    case BooleanOps | ArithmeticOps | RowNumOps => RecordBranch
    case SortOps | LimitOps | CollectOps => PassBranch
    case AggregationOps => GroupbyBranch
    case AnalysisOps => AnalysisBranch
    case ReturnOps => ReturnBranch
  }

  /**
   * Every registered operation reaches the branch of its own table; a name
   * that does not resolve is unhandled; and since `groupby` is the only
   * aggregation, the "Unhandled aggregation operation" error is never
   * raised.
   */
  lemma BranchByCategory(name: string)
    ensures ResolveOperation(name).Ok? ==>
      BranchOf(name) == CategoryBranch(CategoryOf(ResolveOperation(name).value))
    ensures ResolveOperation(name).Err? <==> BranchOf(name) == UnhandledBranch
    ensures BranchOf(name) != AggregationBranch
  {
    ResolveIffSomeIs(name);
    if ResolveOperation(name).Ok? {
      var op := ResolveOperation(name).value;
      assert IsOperation(CategoryOf(op), name);
      ResolveCategory(name, CategoryOf(op));
      BranchOfTable(name, CategoryOf(op));
    }
  }

  /** A name in exactly one table takes that table's branch. */
  lemma BranchOfTable(name: string, c: Category)
    requires IsOperation(c, name)
    requires forall d :: IsOperation(d, name) ==> d == c
    ensures BranchOf(name) == CategoryBranch(c)
  {
    if c == AggregationOps {
      var op :| CategoryOf(op) == c && NameOf(op) == name;
      assert op == Groupby;
    }
  }

  // ---------------------------------------------------------------------------
  // The operands of an analysis step
  // ---------------------------------------------------------------------------

  /** The argument is a step of the subplan that is not a groupby. */
  predicate Measured(sub: Plan, a: string)
  {
    HasKey(sub, a) && Get(sub, a).value.operation != "groupby"
  }

  /**
   * The operands are collected when every argument is a step of the
   * subplan and every non-groupby one has a field; they are then no more
   * than the arguments, and the fields of the non-groupby arguments are
   * exactly the values they hold.
   */
  lemma {:induction false} AnalysisOperandsFilter(args: seq<string>, sub: Plan, fields: FieldMap)
    ensures AnalysisOperands(args, sub, fields).Ok? <==>
      forall i :: 0 <= i < |args| ==> HasKey(sub, args[i]) && (Measured(sub, args[i]) ==> args[i] in fields)
    ensures AnalysisOperands(args, sub, fields).Ok? ==>
      var r := AnalysisOperands(args, sub, fields).value;
      |r| <= |args| &&
      (forall i :: 0 <= i < |args| && Measured(sub, args[i]) ==> Sub(fields[args[i]]) in r) &&
      (forall x :: x in r ==> exists i :: 0 <= i < |args| && Measured(sub, args[i]) && x == Sub(fields[args[i]]))
    decreases |args|
  {
    if args != [] {
      var tail := args[1..];
      AnalysisOperandsFilter(tail, sub, fields);
      assert forall i :: 0 <= i < |tail| ==> tail[i] == args[i + 1];
      var r := AnalysisOperands(args, sub, fields);
      if r.Ok? {
        var rest := AnalysisOperands(tail, sub, fields).value;
        forall x | x in r.value
          ensures exists i :: 0 <= i < |args| && Measured(sub, args[i]) && x == Sub(fields[args[i]])
        {
          if x !in rest {
            assert Measured(sub, args[0]) && x == Sub(fields[args[0]]);
          } else {
            var i :| 0 <= i < |tail| && Measured(sub, tail[i]) && x == Sub(fields[tail[i]]);
            assert args[i + 1] == tail[i];
          }
        }
        forall i | 0 <= i < |args| && Measured(sub, args[i]) ensures Sub(fields[args[i]]) in r.value {
          if i > 0 {
            assert tail[i - 1] == args[i];
          }
        }
      } else if HasKey(sub, args[0]) && (Measured(sub, args[0]) ==> args[0] in fields) {
        var i :| 0 <= i < |tail| && !(HasKey(sub, tail[i]) && (Measured(sub, tail[i]) ==> tail[i] in fields));
        assert args[i + 1] == tail[i];
      }
    }
  }

  // ---------------------------------------------------------------------------
  // build_query_arguments_from_sqr_plan
  // ---------------------------------------------------------------------------

  /** The refs of `order` that are steps of `sub`, in order. */
  function Local(order: seq<string>, sub: Plan): (r: seq<string>)
    ensures forall x :: x in r <==> x in order && HasKey(sub, x)
  {
    if order == [] then []
    else (if HasKey(sub, order[0]) then [order[0]] else []) + Local(order[1..], sub)
  }

  /** Refs of other subplans in the global order are skipped: only the subplan's own steps matter, in order. */
  lemma {:induction false} SubplanLocal(plan: AnalysisPlan, alias: string, sub: Plan,
                                        done: map<string, FieldMap>, st: Built, order: seq<string>)
    ensures SubplanSpec(plan, alias, sub, done, st, order) ==
      SubplanSpec(plan, alias, sub, done, st, Local(order, sub))
    decreases |order|
  {
    if order != [] {
      var l := Local(order, sub);
      match Get(sub, order[0])
      case None =>
        assert l == Local(order[1..], sub);
        SubplanLocal(plan, alias, sub, done, st, order[1..]);
      case Some(step) =>
        assert l[0] == order[0] && l[1..] == Local(order[1..], sub);
        var r := StepSpec(plan, alias, sub, done, st, order[0], step);
        if r.Ok? {
          SubplanLocal(plan, alias, sub, done, r.value, order[1..]);
        }
    }
  }

  predicate Unique(s: seq<string>)
  {
    forall i, j :: 0 <= i < j < |s| ==> s[i] != s[j]
  }

  /** Moving the first alias of `items` to the end of the records' keys keeps the keys unique. */
  lemma ShiftKey(out: Dict<Snapshot>, items: Dict<Plan>, q: Snapshot)
    requires items != [] && Unique(Keys(out) + Keys(items))
    ensures !HasKey(out, items[0].0)
    ensures Keys(out + [(items[0].0, q)]) + Keys(items[1..]) == Keys(out) + Keys(items)
  {
    var all := Keys(out) + Keys(items);
    assert all[|out|] == items[0].0;
    forall i | 0 <= i < |out| ensures out[i].0 != items[0].0 {
      assert all[i] == out[i].0;
    }
  }

  /** The records come out keyed by the subplans' aliases, in the subplans' order. */
  lemma {:induction false} BuildFromKeys(plan: AnalysisPlan, order: seq<string>, done: map<string, FieldMap>,
                                         out: Dict<Snapshot>, items: Dict<Plan>)
    requires Unique(Keys(out) + Keys(items))
    requires BuildFrom(plan, order, done, out, items).Ok?
    ensures Keys(BuildFrom(plan, order, done, out, items).value) == Keys(out) + Keys(items)
    decreases |items|
  {
    if items != [] {
      var alias := items[0].0;
      var st := SubplanSpec(plan, alias, items[0].1, done, Built(Fresh, map[]), order).value;
      ShiftKey(out, items, st.q);
      BuildFromKeys(plan, order, done[alias := st.fields], Put(out, alias, st.q), items[1..]);
    }
  }

  lemma BuildKeys(plan: AnalysisPlan, order: seq<string>)
    requires DistinctKeys(plan.subplans)
    requires BuildSpec(plan, order).Ok?
    ensures Keys(BuildSpec(plan, order).value) == Keys(plan.subplans)
  {
    assert Keys<Snapshot>([]) + Keys(plan.subplans) == Keys(plan.subplans);
    BuildFromKeys(plan, order, map[], [], plan.subplans);
  }

  // ---------------------------------------------------------------------------
  // Every column a subplan's record names belongs to that subplan
  // ---------------------------------------------------------------------------

  predicate OwnedFields(fields: FieldMap, alias: string)
  {
    forall k :: k in fields ==> fields[k].subplan == alias
  }

  /** The fields in `sqrfields` and the stored conditions are all rooted in subplan `alias`. */
  predicate OwnedRecord(q: Snapshot, alias: string)
  {
    (forall x :: x in q.sqrfields ==> x.1.subplan == alias) &&
    (q.filter.Where? ==> q.filter.field.subplan == alias) &&
    (q.having.Where? ==> q.having.field.subplan == alias)
  }

  predicate Owned(st: Built, alias: string)
  {
    OwnedFields(st.fields, alias) && OwnedRecord(st.q, alias)
  }

  lemma PutOwned(q: Snapshot, alias: string, n: string, f: SQRField)
    requires OwnedRecord(q, alias) && f.subplan == alias
    ensures OwnedRecord(q.(sqrfields := Put(q.sqrfields, n, f)), alias)
  {
    PutItems(q.sqrfields, n, f);
  }

  lemma {:induction false} GroupbyOwned(q: Snapshot, fields: FieldMap, args: seq<string>, alias: string)
    requires OwnedFields(fields, alias) && OwnedRecord(q, alias) && GroupbySpec(q, fields, args).Ok?
    ensures OwnedRecord(GroupbySpec(q, fields, args).value, alias)
    decreases |args|
  {
    if args != [] {
      var f := fields[args[0]];
      var n := ColumnName(f).value;
      PutOwned(q, alias, n, f);
      GroupbyOwned(q.(groupBys := q.groupBys + [n], sqrfields := Put(q.sqrfields, n, f)), fields, args[1..], alias);
    }
  }

  lemma {:induction false} SelectOwned(q: Snapshot, fields: FieldMap, args: seq<string>, alias: string)
    requires OwnedFields(fields, alias) && OwnedRecord(q, alias) && SelectSpec(q, fields, args).Ok?
    ensures OwnedRecord(SelectSpec(q, fields, args).value, alias)
    decreases |args|
  {
    if args != [] {
      var f := fields[args[0]];
      var n := ColumnName(f).value;
      PutOwned(q, alias, n, f);
      SelectOwned(q.(sqrfields := Put(q.sqrfields, n, f), select := q.select + [n]), fields, args[1..], alias);
    }
  }

  lemma {:induction false} SortOwned(q: Snapshot, fields: FieldMap, args: seq<string>, alias: string)
    requires OwnedFields(fields, alias) && OwnedRecord(q, alias) && SortSpec(q, fields, args).Ok?
    ensures OwnedRecord(SortSpec(q, fields, args).value, alias)
    decreases |args|
  {
    if |args| >= 2 {
      var f := fields[args[0]];
      var n := ColumnName(f).value;
      PutOwned(q, alias, n, f);
      SortOwned(q.(sortAttributes := q.sortAttributes + [SortAttribute(n, args[1])],
                   sqrfields := Put(q.sqrfields, n, f)), fields, args[2..], alias);
    }
  }

  lemma ReturnArgOwned(q: Snapshot, sub: Plan, fields: FieldMap, a: string, alias: string)
    requires OwnedFields(fields, alias) && OwnedRecord(q, alias) && ReturnArgSpec(q, sub, fields, a).Ok?
    ensures OwnedRecord(ReturnArgSpec(q, sub, fields, a).value, alias)
  {
    var s := StepOf(sub, a).value;
    if !IsBoolean(s.operation) && IsSort(s.operation) {
      SortOwned(q, fields, s.args, alias);
    }
  }

  lemma {:induction false} ReturnArgsOwned(q: Snapshot, sub: Plan, fields: FieldMap, args: seq<string>, alias: string)
    requires OwnedFields(fields, alias) && OwnedRecord(q, alias) && ReturnArgsSpec(q, sub, fields, args).Ok?
    ensures OwnedRecord(ReturnArgsSpec(q, sub, fields, args).value, alias)
    decreases |args|
  {
    if args != [] {
      ReturnArgOwned(q, sub, fields, args[0], alias);
      ReturnArgsOwned(ReturnArgSpec(q, sub, fields, args[0]).value, sub, fields, args[1..], alias);
    }
  }

  lemma ReturnOwned(q: Snapshot, sub: Plan, fields: FieldMap, step: Step, alias: string)
    requires OwnedFields(fields, alias) && OwnedRecord(q, alias) && ReturnSpec(q, sub, fields, step).Ok?
    ensures OwnedRecord(ReturnSpec(q, sub, fields, step).value, alias)
  {
    var collect := StepOf(sub, step.args[0]).value;
    SelectOwned(q, fields, collect.args, alias);
    ReturnArgsOwned(SelectSpec(q, fields, collect.args).value, sub, fields, step.args[1..], alias);
  }

  /** Every field a step stores, and every field it puts in the record, is rooted in the current subplan. */
  lemma StepOwned(plan: AnalysisPlan, alias: string, sub: Plan, done: map<string, FieldMap>,
                  st: Built, ref: string, step: Step)
    requires Owned(st, alias) && StepSpec(plan, alias, sub, done, st, ref, step).Ok?
    ensures Owned(StepSpec(plan, alias, sub, done, st, ref, step).value, alias)
  {
    match BranchOf(step.operation)
    case RetrievalBranch =>
      if step.operation == "retrieve_attribute" {
        AttributeCases(plan, alias, sub, done, st, ref, step);
      }
    case GroupbyBranch => GroupbyOwned(st.q, st.fields, step.args, alias);
    case ReturnBranch => ReturnOwned(st.q, sub, st.fields, step, alias);
    case _ =>
  }

  lemma {:induction false} SubplanOwned(plan: AnalysisPlan, alias: string, sub: Plan,
                                        done: map<string, FieldMap>, st: Built, order: seq<string>)
    requires Owned(st, alias) && SubplanSpec(plan, alias, sub, done, st, order).Ok?
    ensures Owned(SubplanSpec(plan, alias, sub, done, st, order).value, alias)
    decreases |order|
  {
    if order != [] {
      match Get(sub, order[0])
      case None => SubplanOwned(plan, alias, sub, done, st, order[1..]);
      case Some(step) =>
        StepOwned(plan, alias, sub, done, st, order[0], step);
        SubplanOwned(plan, alias, sub, done, StepSpec(plan, alias, sub, done, st, order[0], step).value, order[1..]);
    }
  }

  lemma {:induction false} BuildFromOwned(plan: AnalysisPlan, order: seq<string>, done: map<string, FieldMap>,
                                          out: Dict<Snapshot>, items: Dict<Plan>)
    requires forall x :: x in out ==> OwnedRecord(x.1, x.0)
    requires BuildFrom(plan, order, done, out, items).Ok?
    ensures forall x :: x in BuildFrom(plan, order, done, out, items).value ==> OwnedRecord(x.1, x.0)
    decreases |items|
  {
    if items != [] {
      var alias := items[0].0;
      var st := SubplanSpec(plan, alias, items[0].1, done, Built(Fresh, map[]), order).value;
      SubplanOwned(plan, alias, items[0].1, done, Built(Fresh, map[]), order);
      PutItems(out, alias, st.q);
      BuildFromOwned(plan, order, done[alias := st.fields], Put(out, alias, st.q), items[1..]);
    }
  }

  /**
   * A subplan's record only names columns of that subplan: another
   * subplan's column enters it wrapped, as a column of the subquery.
   */
  lemma BuildOwned(plan: AnalysisPlan, order: seq<string>)
    requires BuildSpec(plan, order).Ok?
    ensures forall x :: x in BuildSpec(plan, order).value ==> OwnedRecord(x.1, x.0)
  {
    BuildFromOwned(plan, order, map[], [], plan.subplans);
  }
}
