/**
 * `QueryBuilderSQR.build_query_arguments_from_sqr_plan` as the source runs
 * it: one fresh `QueryArguments` per subplan, filled in place step by step,
 * with `step_to_field` kept as a map from alias to the fields of that
 * subplan. Each method is proved to leave the record, and return the
 * fields, that the specification functions of `QueryBuilder` describe.
 */
module BuildQuery {

  import opened Wrappers
  import opened Dicts
  import opened Ontology
  import opened Steps
  import opened SqrFields
  import opened QueryArgs
  import opened QueryBuilder

  /** A method that fills a record in place ended as its specification says. */
  predicate Settled(err: Option<Error>, q: Snapshot, spec: Result<Snapshot>)
  {
    match spec
    case Ok(s) => err == None && q == s
    case Err(e) => err == Some(e)
  }

  /** A method that fills a record and returns the subplan's fields ended as its specification says. */
  predicate Agrees(r: Result<FieldMap>, q: Snapshot, spec: Result<Built>)
  {
    match spec
    case Ok(b) => r == Ok(b.fields) && q == b.q
    case Err(e) => r == Err(e)
  }

  /** The groupby loop. */
  method Groupby(qa: QueryArguments, fields: FieldMap, args: seq<string>) returns (err: Option<Error>)
    modifies qa
    ensures Settled(err, qa.Snap(), GroupbySpec(old(qa.Snap()), fields, args))
  {
    ghost var q0 := qa.Snap();
    var i := 0;
    while i < |args|
      invariant 0 <= i <= |args|
      invariant GroupbySpec(q0, fields, args) == GroupbySpec(qa.Snap(), fields, args[i..])
    {
      assert args[i..][0] == args[i] && args[i..][1..] == args[i + 1..];
      var f := FieldOf(fields, args[i]);
      if f.Err? {
        return Some(f.error);
      }
      var n := ColumnName(f.value);
      if n.Err? {
        return Some(n.error);
      }
      qa.groupBys := qa.groupBys + [n.value];
      qa.sqrfields := Put(qa.sqrfields, n.value, f.value);
      i := i + 1;
    }
    return None;
  }

  /** The loop over the collect step's arguments. */
  method Select(qa: QueryArguments, fields: FieldMap, args: seq<string>) returns (err: Option<Error>)
    modifies qa
    ensures Settled(err, qa.Snap(), SelectSpec(old(qa.Snap()), fields, args))
  {
    ghost var q0 := qa.Snap();
    var i := 0;
    while i < |args|
      invariant 0 <= i <= |args|
      invariant SelectSpec(q0, fields, args) == SelectSpec(qa.Snap(), fields, args[i..])
    {
      assert args[i..][0] == args[i] && args[i..][1..] == args[i + 1..];
      var f := FieldOf(fields, args[i]);
      if f.Err? {
        return Some(f.error);
      }
      var n := ColumnName(f.value);
      if n.Err? {
        return Some(n.error);
      }
      qa.sqrfields := Put(qa.sqrfields, n.value, f.value);
      qa.select := qa.select + [n.value];
      i := i + 1;
    }
    return None;
  }

  /** The loop over the (attribute, direction) pairs of a sort step. */
  method Sort(qa: QueryArguments, fields: FieldMap, args: seq<string>) returns (err: Option<Error>)
    modifies qa
    ensures Settled(err, qa.Snap(), SortSpec(old(qa.Snap()), fields, args))
  {
    ghost var q0 := qa.Snap();
    var i := 0;
    while i + 1 < |args|
      invariant 0 <= i <= |args|
      invariant SortSpec(q0, fields, args) == SortSpec(qa.Snap(), fields, args[i..])
      decreases |args| - i
    {
      assert args[i..][0] == args[i] && args[i..][1] == args[i + 1] && args[i..][2..] == args[i + 2..];
      var f := FieldOf(fields, args[i]);
      if f.Err? {
        return Some(f.error);
      }
      var n := ColumnName(f.value);
      if n.Err? {
        return Some(n.error);
      }
      qa.sortAttributes := qa.sortAttributes + [SortAttribute(n.value, args[i + 1])];
      qa.sqrfields := Put(qa.sqrfields, n.value, f.value);
      i := i + 2;
    }
    return None;
  }

  /** One argument of the return step after the collect. */
  method ReturnArg(qa: QueryArguments, sub: Plan, fields: FieldMap, a: string) returns (err: Option<Error>)
    modifies qa
    ensures Settled(err, qa.Snap(), ReturnArgSpec(old(qa.Snap()), sub, fields, a))
  {
    var s := StepOf(sub, a);
    if s.Err? {
      return Some(s.error);
    }
    var op := s.value.operation;
    if IsBoolean(op) {
      var f := FieldOf(fields, a);
      if f.Err? {
        return Some(f.error);
      }
      var agg := ContainsAggregate(f.value);
      if agg.Err? {
        return Some(agg.error);
      }
      if agg.value {
        qa.having := Where(f.value);
      } else {
        qa.filter := Where(f.value);
      }
      err := None;
    } else if IsSort(op) {
      err := Sort(qa, fields, s.value.args);
    } else if IsLimit(op) {
      var l := ArgAt(s.value.args, 0);
      if l.Err? {
        return Some(l.error);
      }
      qa.limit := Some(l.value);
      err := None;
    } else {
      err := None;
    }
  }

  /** The return step: the select list, then each further argument in order. */
  method Return(qa: QueryArguments, sub: Plan, fields: FieldMap, step: Step) returns (err: Option<Error>)
    modifies qa
    ensures Settled(err, qa.Snap(), ReturnSpec(old(qa.Snap()), sub, fields, step))
  {
    var c := ArgAt(step.args, 0);
    if c.Err? {
      return Some(c.error);
    }
    var collect := StepOf(sub, c.value);
    if collect.Err? {
      return Some(collect.error);
    }
    err := Select(qa, fields, collect.value.args);
    if err.Some? {
      return;
    }
    err := ReturnArgs(qa, sub, fields, step.args[1..]);
  }

  /** The loop over the return step's arguments after the collect. */
  method ReturnArgs(qa: QueryArguments, sub: Plan, fields: FieldMap, args: seq<string>) returns (err: Option<Error>)
    modifies qa
    ensures Settled(err, qa.Snap(), ReturnArgsSpec(old(qa.Snap()), sub, fields, args))
  {
    ghost var q0 := qa.Snap();
    var i := 0;
    while i < |args|
      invariant 0 <= i <= |args|
      invariant ReturnArgsSpec(q0, sub, fields, args) == ReturnArgsSpec(qa.Snap(), sub, fields, args[i..])
    {
      assert args[i..][0] == args[i] && args[i..][1..] == args[i + 1..];
      err := ReturnArg(qa, sub, fields, args[i]);
      if err.Some? {
        return;
      }
      i := i + 1;
    }
    return None;
  }

  /** The retrieval branch. */
  method Retrieve(plan: AnalysisPlan, alias: string, sub: Plan, done: map<string, FieldMap>,
                  qa: QueryArguments, fields: FieldMap, ref: string, step: Step) returns (r: Result<FieldMap>)
    modifies qa
    ensures Agrees(r, qa.Snap(), RetrieveSpec(plan, alias, sub, done, Built(old(qa.Snap()), fields), ref, step))
  {
    if step.operation == "retrieve_entity" {
      var e := ArgAt(step.args, 0);
      if e.Err? {
        return Err(e.error);
      }
      qa.froms := qa.froms + [e.value];
      return Ok(fields);
    } else if step.operation == "retrieve_attribute" {
      r := Attribute(plan, alias, sub, done, qa, fields, ref, step);
    } else {
      r := Err(ValueError("Unhandled retrieval operation: '" + step.operation + "'"));
    }
  }

  /** `retrieve_attribute`. */
  method Attribute(plan: AnalysisPlan, alias: string, sub: Plan, done: map<string, FieldMap>,
                   qa: QueryArguments, fields: FieldMap, ref: string, step: Step) returns (r: Result<FieldMap>)
    modifies qa
    ensures Agrees(r, qa.Snap(), AttributeSpec(plan, alias, sub, done, Built(old(qa.Snap()), fields), ref, step))
  {
    var a0 := ArgAt(step.args, 0);
    if a0.Err? {
      return Err(a0.error);
    }
    var parent := ParentSubplan(a0.value, alias, plan.subplans);
    if parent.Err? {
      return Err(parent.error);
    }
    var fromParent := false;
    if parent.value.Some? && parent.value.value != "" {
      var s := StepOf(plan.steps, a0.value);
      if s.Err? {
        return Err(s.error);
      }
      fromParent := IsReturn(s.value.operation);
    }
    if fromParent {
      var p := parent.value.value;
      if p !in done {
        return Err(KeyError(p));
      }
      var a1 := ArgAt(step.args, 1);
      if a1.Err? {
        return Err(a1.error);
      }
      var f := FieldOf(done[p], a1.value);
      if f.Err? {
        return Err(f.error);
      }
      r := Ok(fields[ref := WrappedField(alias, f.value)]);
      if p !in qa.froms {
        qa.froms := qa.froms + [p];
      }
    } else {
      var s := StepOf(sub, a0.value);
      if s.Err? {
        return Err(s.error);
      }
      var e := ArgAt(s.value.args, 0);
      if e.Err? {
        return Err(e.error);
      }
      var a1 := ArgAt(step.args, 1);
      if a1.Err? {
        return Err(a1.error);
      }
      r := Ok(fields[ref := EntityField(alias, e.value, a1.value)]);
    }
  }

  /** A boolean, arithmetic or row-number step: its record, under the step's reference. */
  method Record(alias: string, sub: Plan, fields: FieldMap, ref: string, step: Step) returns (r: Result<FieldMap>)
    ensures r == RecordSpec(alias, sub, fields, ref, step)
  {
    var args := step.args;
    if IsRowNum(step.operation) {
      if step.args == [] {
        args := [];
      } else {
        var s := StepOf(sub, step.args[0]);
        if s.Err? {
          return Err(s.error);
        }
        args := s.value.args;
      }
    }
    var operands := Operands(args, fields);
    var name := OpColumnName(step.operation, operands);
    if name.Err? {
      return Err(name.error);
    }
    r := Ok(fields[ref := OpField(alias, name.value, step.operation, operands)]);
  }

  /** An analysis step: its record over the non-groupby operands. */
  method Analysis(alias: string, sub: Plan, fields: FieldMap, ref: string, step: Step) returns (r: Result<FieldMap>)
    ensures r == AnalysisSpec(alias, sub, fields, ref, step)
  {
    var operands := AnalysisOperands(step.args, sub, fields);
    if operands.Err? {
      return Err(operands.error);
    }
    var name := OpColumnName(step.operation, operands.value);
    if name.Err? {
      return Err(name.error);
    }
    r := Ok(fields[ref := OpField(alias, name.value, step.operation, operands.value)]);
  }

  /** One step of the subplan, by the branch its operation takes. */
  method ApplyStep(plan: AnalysisPlan, alias: string, sub: Plan, done: map<string, FieldMap>,
                   qa: QueryArguments, fields: FieldMap, ref: string, step: Step) returns (r: Result<FieldMap>)
    modifies qa
    ensures Agrees(r, qa.Snap(), StepSpec(plan, alias, sub, done, Built(old(qa.Snap()), fields), ref, step))
  {
    var op := step.operation;
    match BranchOf(op) {
      case RetrievalBranch =>
        r := Retrieve(plan, alias, sub, done, qa, fields, ref, step);
      case RecordBranch =>
        r := Record(alias, sub, fields, ref, step);
      case PassBranch =>
        r := Ok(fields);
      case GroupbyBranch =>
        var err := Groupby(qa, fields, step.args);
        r := if err.Some? then Err(err.value) else Ok(fields);
      case AggregationBranch =>
        r := Err(ValueError("Unhandled aggregation operation: '" + op + "'"));
      case AnalysisBranch =>
        r := Analysis(alias, sub, fields, ref, step);
      case ReturnBranch =>
        var err := Return(qa, sub, fields, step);
        r := if err.Some? then Err(err.value) else Ok(fields);
      case UnhandledBranch =>
        r := Err(ValueError("Unhandled operation: '" + op + "'"));
    }
  }

  /** The steps of one subplan, in the global order, filling `qa`; returns `step_to_field[alias]`. */
  method Subplan(plan: AnalysisPlan, alias: string, sub: Plan, done: map<string, FieldMap>,
                 qa: QueryArguments, order: seq<string>) returns (r: Result<FieldMap>)
    modifies qa
    ensures Agrees(r, qa.Snap(), SubplanSpec(plan, alias, sub, done, Built(old(qa.Snap()), map[]), order))
  {
    ghost var st0 := Built(qa.Snap(), map[]);
    var fields: FieldMap := map[];
    var i := 0;
    while i < |order|
      invariant 0 <= i <= |order|
      invariant SubplanSpec(plan, alias, sub, done, st0, order) ==
        SubplanSpec(plan, alias, sub, done, Built(qa.Snap(), fields), order[i..])
    {
      assert order[i..][0] == order[i] && order[i..][1..] == order[i + 1..];
      match Get(sub, order[i]) {
        case None =>
        case Some(step) =>
          var res := ApplyStep(plan, alias, sub, done, qa, fields, order[i], step);
          if res.Err? {
            return res;
          }
          fields := res.value;
      }
      i := i + 1;
    }
    return Ok(fields);
  }

  /** The records of a dictionary of `QueryArguments`, as values. */
  function Snaps(d: Dict<QueryArguments>): (r: Dict<Snapshot>)
    reads set i | 0 <= i < |d| :: d[i].1
    ensures |r| == |d|
    ensures forall i :: 0 <= i < |d| ==> r[i] == (d[i].0, d[i].1.Snap())
  {
    if d == [] then [] else [(d[0].0, d[0].1.Snap())] + Snaps(d[1..])
  }

  /** Storing an object under a key stores its record under that key. */
  lemma {:induction false} SnapsPut(d: Dict<QueryArguments>, k: string, qa: QueryArguments)
    ensures Snaps(Put(d, k, qa)) == Put(Snaps(d), k, qa.Snap())
  {
    if d != [] && d[0].0 != k {
      SnapsPut(d[1..], k, qa);
      HasKeyTail(d, k);
      assert Snaps(d)[1..] == Snaps(d[1..]);
      assert Snaps(d)[0].0 == d[0].0;
    }
  }

  /** One subplan of the fold `BuildFrom`, given what the subplan built. */
  lemma BuildFromStep(plan: AnalysisPlan, order: seq<string>, done: map<string, FieldMap>,
                      out: Dict<Snapshot>, i: nat, res: Result<FieldMap>, q: Snapshot)
    requires i < |plan.subplans|
    requires Agrees(res, q, SubplanSpec(plan, plan.subplans[i].0, plan.subplans[i].1, done, Built(Fresh, map[]), order))
    ensures res.Err? ==> BuildFrom(plan, order, done, out, plan.subplans[i..]) == Err(res.error)
    ensures res.Ok? ==>
      BuildFrom(plan, order, done, out, plan.subplans[i..]) ==
      BuildFrom(plan, order, done[plan.subplans[i].0 := res.value], Put(out, plan.subplans[i].0, q), plan.subplans[i + 1..])
  {
    var items := plan.subplans[i..];
    assert items[0] == plan.subplans[i] && items[1..] == plan.subplans[i + 1..];
  }

  /** The objects of a dictionary of records. */
  function Objects(d: Dict<QueryArguments>): set<QueryArguments>
  {
    set i | 0 <= i < |d| :: d[i].1
  }

  lemma ObjectsPut(d: Dict<QueryArguments>, k: string, qa: QueryArguments)
    ensures Objects(Put(d, k, qa)) <= Objects(d) + {qa}
  {
    PutItems(d, k, qa);
    var p := Put(d, k, qa);
    forall x | x in Objects(p) ensures x in Objects(d) + {qa} {
      var i :| 0 <= i < |p| && p[i].1 == x;
      assert p[i] in p;
      if p[i] != (k, qa) {
        var j :| 0 <= j < |d| && d[j] == p[i];
      }
    }
  }

  /** A fresh record for the subplan at position `i`, filled by its steps. */
  method FillSubplan(plan: AnalysisPlan, order: seq<string>, done: map<string, FieldMap>, i: nat)
    returns (qa: QueryArguments, res: Result<FieldMap>)
    requires i < |plan.subplans|
    ensures fresh(qa)
    ensures Agrees(res, qa.Snap(),
      SubplanSpec(plan, plan.subplans[i].0, plan.subplans[i].1, done, Built(Fresh, map[]), order))
  {
    qa := new QueryArguments([], {}, [], {}, [], [], [], NoCondition, NoCondition, []);
    assert qa.Snap() == Fresh;
    res := Subplan(plan, plan.subplans[i].0, plan.subplans[i].1, done, qa, order);
  }

  /**
   * The body of the loop over the subplans: the filled record of the
   * subplan at position `i` stored under its alias, its fields added to
   * `step_to_field`.
   */
  method AddSubplan(plan: AnalysisPlan, order: seq<string>, done: map<string, FieldMap>,
                    out: Dict<QueryArguments>, i: nat)
    returns (r: Result<(map<string, FieldMap>, Dict<QueryArguments>)>)
    requires i < |plan.subplans|
    ensures r.Err? ==> BuildFrom(plan, order, done, Snaps(out), plan.subplans[i..]) == Err(r.error)
    ensures r.Ok? ==>
      BuildFrom(plan, order, done, Snaps(out), plan.subplans[i..]) ==
      BuildFrom(plan, order, r.value.0, Snaps(r.value.1), plan.subplans[i + 1..])
    ensures r.Ok? ==> fresh(Objects(r.value.1) - Objects(out))
  {
    var qa, res := FillSubplan(plan, order, done, i);
    BuildFromStep(plan, order, done, Snaps(out), i, res, qa.Snap());
    if res.Err? {
      return Err(res.error);
    }
    var alias := plan.subplans[i].0;
    SnapsPut(out, alias, qa);
    ObjectsPut(out, alias, qa);
    r := Ok((done[alias := res.value], Put(out, alias, qa)));
  }

  /**
   * `build_query_arguments_from_sqr_plan`: a fresh record per subplan, in
   * the order of the subplans, each holding what the specification builds.
   */
  method BuildQueryArguments(plan: AnalysisPlan, order: seq<string>) returns (r: Result<Dict<QueryArguments>>)
    ensures r.Ok? <==> BuildSpec(plan, order).Ok?
    ensures r.Ok? ==> Snaps(r.value) == BuildSpec(plan, order).value
    ensures r.Err? ==> r.error == BuildSpec(plan, order).error
    ensures r.Ok? ==> fresh(Objects(r.value))
  {
    var done: map<string, FieldMap> := map[];
    var out: Dict<QueryArguments> := [];
    var i := 0;
    while i < |plan.subplans|
      invariant 0 <= i <= |plan.subplans|
      invariant fresh(Objects(out))
      invariant BuildSpec(plan, order) == BuildFrom(plan, order, done, Snaps(out), plan.subplans[i..])
    {
      var next := AddSubplan(plan, order, done, out, i);
      if next.Err? {
        return Err(next.error);
      }
      done, out := next.value.0, next.value.1;
      i := i + 1;
    }
    return Ok(out);
  }
}
