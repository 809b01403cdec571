/**
 * `core/Analysis/OperationOntology.py`: the ten category tables built once
 * by the constructor, the `is_*` membership predicates, and
 * `resolve_operation`, which looks a name up in the tables in a fixed order.
 */
module Ontology {

  import opened Wrappers
  import opened OpNames
  import opened Operations

  /** One table per `*_operations` field of the ontology. */
  datatype Category =
    | RetrievalOps | AggregationOps | BooleanOps | CollectOps | ReturnOps
    | SortOps | LimitOps | RowNumOps | AnalysisOps | ArithmeticOps

  /** The classes each `load_*_operations` instantiates, in dictionary order. */
  function Table(c: Category): seq<Op>
  {
    match c
    case RetrievalOps => [RetrieveEntity, RetrieveAttribute]
    case AggregationOps => [Groupby]
    case BooleanOps => [Exact, Contains, LessThan, GreaterThan, LessThanEq, GreaterThanEq, And, Or, Not]
    case CollectOps => [Collect]
    case ReturnOps => [Return]
    case SortOps => [Op.Sort]
    case LimitOps => [Limit]
    case RowNumOps => [Op.RowNum]
    case AnalysisOps =>
      [Average, Count, CountUnique, Max, Median, Min, Sum, StdDev, StringAgg, GetOne, Correlation]
    case ArithmeticOps =>
      [Add, Subtract, Multiply, Divide, Sqrt, Abs, PercentChange, Duration, Percentage]
  }

  /** The table an operation class is registered in. */
  function CategoryOf(op: Op): Category
  {
    match op
    case RetrieveEntity | RetrieveAttribute => RetrievalOps
    case Groupby => AggregationOps
    case Exact | Contains | LessThan | GreaterThan | LessThanEq | GreaterThanEq | And | Or | Not =>
      BooleanOps
    case Collect => CollectOps
    case Return => ReturnOps
    case Sort => SortOps
    case Limit => LimitOps
    case RowNum => RowNumOps
    case Average | Count | CountUnique | Max | Median | Min | Sum | StdDev | StringAgg | GetOne
      | Correlation => AnalysisOps
    case Add | Subtract | Multiply | Divide | Sqrt | Abs | PercentChange | Duration | Percentage =>
      ArithmeticOps
  }

  /** The boolean table holds exactly the nine classes Exact … Not. */
  lemma BooleanTable()
    ensures |Table(BooleanOps)| == 9
    ensures forall op :: op in Table(BooleanOps) <==> CategoryOf(op) == BooleanOps
  {
  }

  /** The arithmetic table holds exactly the nine math classes. */
  lemma ArithmeticTable(op: Op)
    ensures |Table(ArithmeticOps)| == 9
    ensures op in Table(ArithmeticOps) ==> CategoryOf(op) == ArithmeticOps
  {
  }

  lemma ArithmeticTableComplete(op: Op)
    requires CategoryOf(op) == ArithmeticOps
    ensures op in Table(ArithmeticOps)
  {
  }

  /** The analysis table holds exactly the eleven aggregate classes. */
  lemma AnalysisTable(op: Op)
    ensures |Table(AnalysisOps)| == 11
    ensures op in Table(AnalysisOps) ==> CategoryOf(op) == AnalysisOps
  {
  }

  lemma AnalysisTableComplete(op: Op)
    requires CategoryOf(op) == AnalysisOps
    ensures op in Table(AnalysisOps)
  {
  }

  /** The remaining tables: the two retrievals, and one class each. */
  lemma SmallTables(op: Op)
    ensures op in Table(RetrievalOps) <==> CategoryOf(op) == RetrievalOps
    ensures Table(AggregationOps) == [Groupby] && (CategoryOf(op) == AggregationOps <==> op == Groupby)
    ensures Table(CollectOps) == [Collect] && (CategoryOf(op) == CollectOps <==> op == Collect)
    ensures Table(ReturnOps) == [Return] && (CategoryOf(op) == ReturnOps <==> op == Return)
    ensures Table(SortOps) == [Op.Sort] && (CategoryOf(op) == SortOps <==> op == Op.Sort)
    ensures Table(LimitOps) == [Limit] && (CategoryOf(op) == LimitOps <==> op == Limit)
    ensures Table(RowNumOps) == [Op.RowNum] && (CategoryOf(op) == RowNumOps <==> op == Op.RowNum)
  {
  }

  /** Every class the ontology loads. */
  const AllOps: seq<Op> := [RetrieveEntity, RetrieveAttribute, Groupby, Exact, Contains,
    LessThan, GreaterThan, LessThanEq, GreaterThanEq, And, Or, Not, Collect, Return, Op.Sort,
    Limit, Op.RowNum, Average, Count, CountUnique, Max, Median, Min, Sum, StdDev, StringAgg,
    GetOne, Correlation, Add, Subtract, Multiply, Divide, Sqrt, Abs, PercentChange, Duration,
    Percentage]

  lemma AllOpsComplete(op: Op)
    ensures op in AllOps
  {
  }

  /** The first class of `ops` registered under `name`. */
  function Lookup(name: string, ops: seq<Op>): (r: Option<Op>)
    ensures r.Some? ==> r.value in ops && NameOf(r.value) == name
    ensures r.None? <==> forall op :: op in ops ==> NameOf(op) != name
  {
    if ops == [] then None
    else if NameOf(ops[0]) == name then Some(ops[0])
    else Lookup(name, ops[1..])
  }

  /**
   * `is_retrieval_operation`, `is_analysis_operation`, …: the name is a key
   * of that category's table.
   */
  predicate IsOperation(c: Category, name: string)
  {
    exists op :: CategoryOf(op) == c && NameOf(op) == name
  }

  predicate IsRetrieval(name: string) { IsOperation(RetrievalOps, name) }
  predicate IsAnalysis(name: string) { IsOperation(AnalysisOps, name) }
  predicate IsCollect(name: string) { IsOperation(CollectOps, name) }
  predicate IsReturn(name: string) { IsOperation(ReturnOps, name) }
  predicate IsSort(name: string) { IsOperation(SortOps, name) }
  predicate IsLimit(name: string) { IsOperation(LimitOps, name) }
  predicate IsRowNum(name: string) { IsOperation(RowNumOps, name) }
  predicate IsBoolean(name: string) { IsOperation(BooleanOps, name) }
  predicate IsAggregation(name: string) { IsOperation(AggregationOps, name) }
  predicate IsArithmetic(name: string) { IsOperation(ArithmeticOps, name) }

  /** The return table has one key, `return`. */
  lemma ReturnIsReturn(name: string)
    ensures IsReturn(name) <==> name == "return"
  {
    if name == "return" {
      assert CategoryOf(Return) == ReturnOps && NameOf(Return) == name;
    }
  }

  /** A name is a key of at most one table. */
  lemma IsOperationUnique(c: Category, d: Category, name: string)
    requires IsOperation(c, name) && IsOperation(d, name)
    ensures c == d
  {
    var a :| CategoryOf(a) == c && NameOf(a) == name;
    var b :| CategoryOf(b) == d && NameOf(b) == name;
    NameOfInjective(a, b);
  }

  /**
   * `resolve_operation`: the class registered under the name; unknown names
   * raise ValueError. Which table holds it is settled by `ResolveCategory`.
   */
  function ResolveOperation(name: string): (r: Result<Op>)
    ensures r.Ok? ==> NameOf(r.value) == name
    ensures r.Err? ==> forall op :: NameOf(op) != name
    ensures r.Err? ==>
      r.error == ValueError("Unable to resolve the operation name to operation object.")
  {
    match Lookup(name, AllOps)
    case Some(op) => Ok(op)
    case None =>
      assert forall op :: NameOf(op) != name by {
        forall op ensures NameOf(op) != name { AllOpsComplete(op); }
      }
      Err(ValueError("Unable to resolve the operation name to operation object."))
  }

  /**
   * The class found lies in the table whose `is_*` predicate holds for the
   * name, and no other table has that key; so the if-chain over the tables
   * in the order analysis, retrieval, aggregation, boolean, collect, return,
   * sort, limit, arithmetic, rownum stops at that table whatever the order.
   */
  lemma ResolveCategory(name: string, c: Category)
    requires IsOperation(c, name)
    ensures ResolveOperation(name).Ok?
    ensures CategoryOf(ResolveOperation(name).value) == c
    ensures forall d :: IsOperation(d, name) ==> d == c
  {
    var op :| CategoryOf(op) == c && NameOf(op) == name;
    ResolveFinds(op);
    forall d | IsOperation(d, name)
      ensures d == c
    {
      IsOperationUnique(d, c, name);
    }
  }

  /** A class's own name resolves to that class. */
  lemma ResolveFinds(op: Op)
    ensures ResolveOperation(NameOf(op)) == Ok(op)
  {
    var r := ResolveOperation(NameOf(op));
    assert r.Ok?;
    NameOfInjective(op, r.value);
  }

  /** A name that is some class's own name resolves to that class. */
  lemma ResolveNamed(name: string, op: Op)
    requires NameOf(op) == name
    ensures ResolveOperation(name) == Ok(op)
  {
    ResolveFinds(op);
  }

  /** Resolution succeeds exactly when some `is_*` predicate holds. */
  lemma ResolveIffSomeIs(name: string)
    ensures ResolveOperation(name).Ok? <==> exists c :: IsOperation(c, name)
    ensures ResolveOperation(name).Ok? <==>
      IsAnalysis(name) || IsRetrieval(name) || IsAggregation(name) || IsBoolean(name) ||
      IsCollect(name) || IsReturn(name) || IsSort(name) || IsLimit(name) ||
      IsArithmetic(name) || IsRowNum(name)
  {
    if ResolveOperation(name).Ok? {
      var op := ResolveOperation(name).value;
      assert IsOperation(CategoryOf(op), name);
    }
  }

}
