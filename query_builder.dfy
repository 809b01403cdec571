/**
 * `core/Analysis/QueryBuilderSQR.py`, `build_query_arguments_from_sqr_plan`
 * and its helpers: each subplan, in dictionary order, gets a fresh
 * `QueryArguments`; its steps, in the global topological order (given here
 * as a parameter), each record the field they produce in `step_to_field`
 * and fill in the subplan's froms, select list, group-bys, conditions,
 * sorts and limit.
 *
 * The steps are specified by the functions `*Spec` over the value of the
 * record (`Snapshot`) and of `step_to_field`; the methods mutate the
 * `QueryArguments` objects in place and are proved to agree with them.
 */
module QueryBuilder {

  import opened Wrappers
  import opened Dicts
  import opened Ontology
  import opened Steps
  import opened SqrFields
  import opened QueryArgs

  /** The part of `step_to_field` that belongs to one subplan. */
  type FieldMap = map<string, SQRField>

  // ---------------------------------------------------------------------------
  // get_parent_subplan
  // ---------------------------------------------------------------------------

  /** The subplan at position `i` has a step `ref`. */
  predicate HoldsAt(subplans: Dict<Plan>, i: int, ref: string)
  {
    0 <= i < |subplans| && HasKey(subplans[i].1, ref)
  }

  /** The aliases of the subplans whose steps include `ref`, in dictionary order. */
  function Containing(subplans: Dict<Plan>, ref: string): (r: seq<string>)
    ensures |r| <= |subplans|
  {
    if subplans == [] then []
    else (if HasKey(subplans[0].1, ref) then [subplans[0].0] else []) + Containing(subplans[1..], ref)
  }

  lemma {:induction false} ContainingIff(subplans: Dict<Plan>, ref: string, k: string)
    ensures k in Containing(subplans, ref) <==> exists i :: HoldsAt(subplans, i, ref) && subplans[i].0 == k
  {
    if subplans != [] {
      var tail := subplans[1..];
      ContainingIff(tail, ref, k);
      if exists i :: HoldsAt(tail, i, ref) && tail[i].0 == k {
        var i :| HoldsAt(tail, i, ref) && tail[i].0 == k;
        assert HoldsAt(subplans, i + 1, ref) && subplans[i + 1].0 == k;
      }
      if exists i :: HoldsAt(subplans, i, ref) && subplans[i].0 == k {
        var i :| HoldsAt(subplans, i, ref) && subplans[i].0 == k;
        if i > 0 {
          assert HoldsAt(tail, i - 1, ref) && tail[i - 1].0 == k;
        }
      }
    }
  }

  /**
   * `get_parent_subplan`: None when the current subplan holds the step,
   * otherwise the one subplan that does (None if none does); two or more
   * raise ValueError.
   */
  function ParentSubplan(ref: string, current: string, subplans: Dict<Plan>): Result<Option<string>>
  {
    match Get(subplans, current)
    case None => Err(KeyError(current))
    case Some(cur) =>
      if HasKey(cur, ref) then Ok(None)
      else
        var ps := Containing(subplans, ref);
        if |ps| > 1 then Err(ValueError("Ambiguous parent plan"))
        else if |ps| == 1 then Ok(Some(ps[0]))
        else Ok(None)
  }

  // ---------------------------------------------------------------------------
  // _contains_aggregate_operator
  // ---------------------------------------------------------------------------

  predicate IsConnective(kind: string)
  {
    kind == "and" || kind == "or" || kind == "not"
  }

  /**
   * `_contains_aggregate_operator`: a condition built with and/or/not holds
   * an aggregate when one of its operands does (checked left to right,
   * stopping at the first); any other condition when one of its operands is
   * an operation record of an analysis kind. A condition that is not an
   * operation record cannot be indexed by 'type'.
   */
  function ContainsAggregate(f: SQRField): Result<bool>
    decreases f, 1
  {
    match f
    case OpField(_, _, kind, args) =>
      if IsConnective(kind) then AnyContains(f, 0)
      else Ok(exists i :: 0 <= i < |args| && args[i].Sub? && IsAnalysisOperation(args[i].field))
    case WrappedField(_, _) => Err(TypeError("'SQRField' object is not subscriptable"))
    case EntityField(_, _, _) => Err(TypeError("string indices must be integers"))
  }

  /** `any(...)` over the operands of a connective from position `i` on, in order. */
  function AnyContains(f: SQRField, i: nat): Result<bool>
    requires f.OpField? && i <= |f.arguments|
    decreases f, 0, |f.arguments| - i
  {
    if i == |f.arguments| then Ok(false)
    else
      match f.arguments[i]
      case Literal(_) => Err(NoAttribute("str", "field"))
      case Sub(g) =>
        var c :- ContainsAggregate(g);
        if c then Ok(true) else AnyContains(f, i + 1)
  }

  // ---------------------------------------------------------------------------
  // build_query_arguments_from_sqr_plan, as functions of the state
  // ---------------------------------------------------------------------------

  /** What one subplan has built so far: its record and `step_to_field[alias]`. */
  datatype Built = Built(q: Snapshot, fields: FieldMap)

  /** `step_to_field[alias][ref]`. */
  function FieldOf(fields: FieldMap, ref: string): (r: Result<SQRField>)
    ensures r.Ok? <==> ref in fields
    ensures r.Ok? ==> r.value == fields[ref]
  {
    if ref in fields then Ok(fields[ref]) else Err(KeyError(ref))
  }

  /** `steps[ref]` of a plan or subplan. */
  function StepOf(p: Plan, ref: string): (r: Result<Step>)
    ensures r.Ok? <==> HasKey(p, ref)
    ensures r.Ok? ==> Get(p, ref) == Some(r.value)
  {
    match Get(p, ref)
    case Some(s) => Ok(s)
    case None => Err(KeyError(ref))
  }

  /** `args[i]`. */
  function ArgAt(args: seq<string>, i: nat): (r: Result<string>)
    ensures r.Ok? <==> i < |args|
    ensures r.Ok? ==> r.value == args[i]
  {
    if i < |args| then Ok(args[i]) else Err(IndexError)
  }

  /** `get_arg_field`: a step already resolved in this subplan is its field, anything else stays a string. */
  function Operands(args: seq<string>, fields: FieldMap): (r: seq<Operand>)
    ensures |r| == |args|
    ensures forall i :: 0 <= i < |args| ==>
      r[i] == if args[i] in fields then Sub(fields[args[i]]) else Literal(args[i])
  {
    seq(|args|, i requires 0 <= i < |args| =>
      if args[i] in fields then Sub(fields[args[i]]) else Literal(args[i]))
  }

  /**
   * The retrieval branch: `retrieve_entity` adds its entity to the froms;
   * `retrieve_attribute` is `AttributeSpec`.
   */
  function RetrieveSpec(plan: AnalysisPlan, alias: string, sub: Plan, done: map<string, FieldMap>,
                        st: Built, ref: string, step: Step): Result<Built>
  {
    if step.operation == "retrieve_entity" then
      var e :- ArgAt(step.args, 0);
      Ok(st.(q := st.q.(froms := st.q.froms + [e])))
    else if step.operation == "retrieve_attribute" then AttributeSpec(plan, alias, sub, done, st, ref, step)
    else
      Err(ValueError("Unhandled retrieval operation: '" + step.operation + "'"))
  }

  /**
   * `retrieve_attribute`: when its entity argument is a return step of
   * another subplan, the column of that subplan's field for the second
   * argument, wrapped (and that subplan joins the froms once); otherwise the
   * attribute of the entity its first argument retrieved.
   */
  function AttributeSpec(plan: AnalysisPlan, alias: string, sub: Plan, done: map<string, FieldMap>,
                         st: Built, ref: string, step: Step): Result<Built>
  {
    var a0 :- ArgAt(step.args, 0);
    var parent :- ParentSubplan(a0, alias, plan.subplans);
    var fromParent :-
      if parent.Some? && parent.value != "" then
        var s :- StepOf(plan.steps, a0);
        Ok(IsReturn(s.operation))
      else Ok(false);
    if fromParent then
      var pfields :- if parent.value in done then Ok(done[parent.value]) else Err(KeyError(parent.value));
      var a1 :- ArgAt(step.args, 1);
      var f :- FieldOf(pfields, a1);
      var froms := if parent.value in st.q.froms then st.q.froms else st.q.froms + [parent.value];
      Ok(Built(st.q.(froms := froms), st.fields[ref := WrappedField(alias, f)]))
    else
      var s :- StepOf(sub, a0);
      var e :- ArgAt(s.args, 0);
      var a1 :- ArgAt(step.args, 1);
      Ok(st.(fields := st.fields[ref := EntityField(alias, e, a1)]))
  }

  /**
   * The boolean, arithmetic and row-number branch: a record over the step's
   * arguments (a row number takes the arguments of the step it names),
   * named by `_get_op_column_name`.
   */
  function RecordSpec(alias: string, sub: Plan, fields: FieldMap, ref: string, step: Step): Result<FieldMap>
  {
    var args :-
      if IsRowNum(step.operation) then
        if step.args == [] then Ok([])
        else
          var s :- StepOf(sub, step.args[0]);
          Ok(s.args)
      else Ok(step.args);
    var operands := Operands(args, fields);
    var name :- OpColumnName(step.operation, operands);
    Ok(fields[ref := OpField(alias, name, step.operation, operands)])
  }

  /** The groupby loop over `args`: each column name joins `group_bys` and `sqrfields`. */
  function GroupbySpec(q: Snapshot, fields: FieldMap, args: seq<string>): Result<Snapshot>
    decreases |args|
  {
    if args == [] then Ok(q)
    else
      var f :- FieldOf(fields, args[0]);
      var n :- ColumnName(f);
      GroupbySpec(q.(groupBys := q.groupBys + [n], sqrfields := Put(q.sqrfields, n, f)), fields, args[1..])
  }

  /** The operands of an analysis step: the fields of its arguments that are not groupby steps. */
  function AnalysisOperands(args: seq<string>, sub: Plan, fields: FieldMap): Result<seq<Operand>>
    decreases |args|
  {
    if args == [] then Ok([])
    else
      var s :- StepOf(sub, args[0]);
      var head :-
        if s.operation != "groupby" then
          var f :- FieldOf(fields, args[0]);
          Ok([Sub(f)])
        else Ok([]);
      var rest :- AnalysisOperands(args[1..], sub, fields);
      Ok(head + rest)
  }

  /** The analysis branch: a record over the non-groupby operands. */
  function AnalysisSpec(alias: string, sub: Plan, fields: FieldMap, ref: string, step: Step): Result<FieldMap>
  {
    var operands :- AnalysisOperands(step.args, sub, fields);
    var name :- OpColumnName(step.operation, operands);
    Ok(fields[ref := OpField(alias, name, step.operation, operands)])
  }

  /** The select loop over the collect step's arguments. */
  function SelectSpec(q: Snapshot, fields: FieldMap, args: seq<string>): Result<Snapshot>
    decreases |args|
  {
    if args == [] then Ok(q)
    else
      var f :- FieldOf(fields, args[0]);
      var n :- ColumnName(f);
      SelectSpec(q.(sqrfields := Put(q.sqrfields, n, f), select := q.select + [n]), fields, args[1..])
  }

  /** The sort loop over `zip(args[0::2], args[1::2])`: a trailing unpaired argument is ignored. */
  function SortSpec(q: Snapshot, fields: FieldMap, args: seq<string>): Result<Snapshot>
    decreases |args|
  {
    if |args| < 2 then Ok(q)
    else
      var f :- FieldOf(fields, args[0]);
      var n :- ColumnName(f);
      SortSpec(q.(sortAttributes := q.sortAttributes + [SortAttribute(n, args[1])],
                  sqrfields := Put(q.sqrfields, n, f)), fields, args[2..])
  }

  /**
   * One argument of the return step after the collect: a condition goes to
   * `having` when it holds an aggregate and to `filter` otherwise, a sort
   * adds its pairs, a limit stores its first argument; anything else is
   * ignored.
   */
  function ReturnArgSpec(q: Snapshot, sub: Plan, fields: FieldMap, a: string): Result<Snapshot>
  {
    var s :- StepOf(sub, a);
    if IsBoolean(s.operation) then
      var f :- FieldOf(fields, a);
      var agg :- ContainsAggregate(f);
      if agg then Ok(q.(having := Where(f))) else Ok(q.(filter := Where(f)))
    else if IsSort(s.operation) then SortSpec(q, fields, s.args)
    else if IsLimit(s.operation) then
      var l :- ArgAt(s.args, 0);
      Ok(q.(limit := Some(l)))
    else Ok(q)
  }

  function ReturnArgsSpec(q: Snapshot, sub: Plan, fields: FieldMap, args: seq<string>): Result<Snapshot>
    decreases |args|
  {
    if args == [] then Ok(q)
    else
      var q1 :- ReturnArgSpec(q, sub, fields, args[0]);
      ReturnArgsSpec(q1, sub, fields, args[1..])
  }

  /** The return branch: the collect step's columns become the select list, then the other arguments apply. */
  function ReturnSpec(q: Snapshot, sub: Plan, fields: FieldMap, step: Step): Result<Snapshot>
  {
    var c :- ArgAt(step.args, 0);
    var collect :- StepOf(sub, c);
    var q1 :- SelectSpec(q, fields, collect.args);
    ReturnArgsSpec(q1, sub, fields, step.args[1..])
  }

  /** Which branch of the builder's if-chain over the ontology a step takes. */
  datatype Branch =
    | RetrievalBranch | RecordBranch | PassBranch | GroupbyBranch | AggregationBranch
    | AnalysisBranch | ReturnBranch | UnhandledBranch

  /** The categories in the order the builder tests them. */
  function BranchOf(op: string): Branch
  {
    if IsRetrieval(op) then RetrievalBranch
    else if IsBoolean(op) || IsArithmetic(op) || IsRowNum(op) then RecordBranch
    else if IsSort(op) || IsLimit(op) then PassBranch
    else if IsAggregation(op) then (if op == "groupby" then GroupbyBranch else AggregationBranch)
    else if IsAnalysis(op) then AnalysisBranch
    else if IsCollect(op) then PassBranch
    else if IsReturn(op) then ReturnBranch
    else UnhandledBranch
  }

  /** One step of a subplan, by the branch its operation takes. */
  function StepSpec(plan: AnalysisPlan, alias: string, sub: Plan, done: map<string, FieldMap>,
                    st: Built, ref: string, step: Step): Result<Built>
  {
    var op := step.operation;
    match BranchOf(op)
    case RetrievalBranch => RetrieveSpec(plan, alias, sub, done, st, ref, step)
    case RecordBranch =>
      var fields :- RecordSpec(alias, sub, st.fields, ref, step);
      Ok(st.(fields := fields))
    case PassBranch => Ok(st)
    case GroupbyBranch =>
      var q :- GroupbySpec(st.q, st.fields, step.args);
      Ok(st.(q := q))
    case AggregationBranch => Err(ValueError("Unhandled aggregation operation: '" + op + "'"))
    case AnalysisBranch =>
      var fields :- AnalysisSpec(alias, sub, st.fields, ref, step);
      Ok(st.(fields := fields))
    case ReturnBranch =>
      var q :- ReturnSpec(st.q, sub, st.fields, step);
      Ok(st.(q := q))
    case UnhandledBranch => Err(ValueError("Unhandled operation: '" + op + "'"))
  }

  /** The steps of one subplan in the global order `order`; refs of other subplans are skipped. */
  function SubplanSpec(plan: AnalysisPlan, alias: string, sub: Plan, done: map<string, FieldMap>,
                       st: Built, order: seq<string>): Result<Built>
    decreases |order|
  {
    if order == [] then Ok(st)
    else
      var st1 :-
        match Get(sub, order[0])
        case None => Ok(st)
        case Some(step) => StepSpec(plan, alias, sub, done, st, order[0], step);
      SubplanSpec(plan, alias, sub, done, st1, order[1..])
  }

  /** The subplans from `items` on, each from a fresh record, with the fields of those before. */
  function BuildFrom(plan: AnalysisPlan, order: seq<string>, done: map<string, FieldMap>,
                     out: Dict<Snapshot>, items: Dict<Plan>): Result<Dict<Snapshot>>
    decreases |items|
  {
    if items == [] then Ok(out)
    else
      var alias := items[0].0;
      var st :- SubplanSpec(plan, alias, items[0].1, done, Built(Fresh, map[]), order);
      BuildFrom(plan, order, done[alias := st.fields], Put(out, alias, st.q), items[1..])
  }

  /**
   * `build_query_arguments_from_sqr_plan(plan)`: the record of every
   * subplan, keyed by alias, given the topological order of the plan graph.
   */
  function BuildSpec(plan: AnalysisPlan, order: seq<string>): Result<Dict<Snapshot>>
  {
    BuildFrom(plan, order, map[], [], plan.subplans)
  }
}
