/**
 * The operation classes the ontology loads (`core/Operations/`), each with
 * the `name` it registers itself under.
 */
module OpNames {

  /** The operation classes the ontology instantiates. */
  datatype Op =
    | RetrieveEntity | RetrieveAttribute
    | Groupby
    | Exact | Contains | LessThan | GreaterThan | LessThanEq | GreaterThanEq | And | Or | Not
    | Collect | Return | Sort | Limit | RowNum
    | Average | Count | CountUnique | Max | Median | Min | Sum | StdDev | StringAgg | GetOne
    | Correlation
    | Add | Subtract | Multiply | Divide | Sqrt | Abs | PercentChange | Duration | Percentage

  /** The `name` each class registers itself under. */
  function NameOf(op: Op): string
  {
    match op
    case RetrieveEntity => "retrieve_entity"
    case RetrieveAttribute => "retrieve_attribute"
    case Groupby => "groupby"
    case Exact => "exact"
    case Contains => "contains"
    case LessThan => "lessthan"
    case GreaterThan => "greaterthan"
    case LessThanEq => "lessthan_eq"
    case GreaterThanEq => "greaterthan_eq"
    case And => "and"
    case Or => "or"
    case Not => "not"
    case Collect => "collect"
    case Return => "return"
    case Sort => "sort"
    case Limit => "limit"
    case RowNum => "rownum"
    case Average => "average"
    case Count => "count"
    case CountUnique => "count_unique"
    case Max => "max"
    case Median => "median"
    case Min => "min"
    case Sum => "sum"
    case StdDev => "stddev"
    case StringAgg => "string_agg"
    case GetOne => "get_one"
    case Correlation => "correlation"
    case Add => "add"
    case Subtract => "subtract"
    case Multiply => "multiply"
    case Divide => "divide"
    case Sqrt => "sqrt"
    case Abs => "abs"
    case PercentChange => "percent_change"
    case Duration => "duration"
    case Percentage => "percentage"
  }

  /** Tells the classes apart by the length and the first two letters of their names. */
  function Decode(s: string): Op
    requires |s| >= 2
  {
    (if |s| == 15 then RetrieveEntity
    else if |s| == 18 then RetrieveAttribute
    else if |s| == 7 then (if s[0] == 'g' then (if s[1] == 'r' then Groupby
        else GetOne)
      else if s[0] == 'c' then Collect
      else Average)
    else if |s| == 5 then (if s[0] == 'e' then Exact
      else if s[0] == 'l' then Op.Limit
      else Count)
    else if |s| == 8 then (if s[0] == 'c' then Contains
      else if s[0] == 'l' then LessThan
      else if s[0] == 's' then Subtract
      else if s[0] == 'm' then Multiply
      else Duration)
    else if |s| == 11 then (if s[0] == 'g' then GreaterThan
      else if s[0] == 'l' then LessThanEq
      else Correlation)
    else if |s| == 14 then (if s[0] == 'g' then GreaterThanEq
      else PercentChange)
    else if |s| == 3 then (if s[0] == 'a' then (if s[1] == 'n' then And
        else if s[1] == 'd' then Add
        else Abs)
      else if s[0] == 'n' then Not
      else if s[0] == 'm' then (if s[1] == 'a' then Max
        else Min)
      else Sum)
    else if |s| == 2 then Or
    else if |s| == 6 then (if s[0] == 'r' then (if s[1] == 'e' then Return
        else Op.RowNum)
      else if s[0] == 'm' then Median
      else if s[0] == 's' then StdDev
      else Divide)
    else if |s| == 4 then (if s[1] == 'o' then Op.Sort
        else Sqrt)
    else if |s| == 12 then CountUnique
    else (if s[0] == 's' then StringAgg
      else Percentage))
  }

  /** Each name decodes back to its class. */
  lemma DecodeName(op: Op)
    ensures |NameOf(op)| >= 2 && Decode(NameOf(op)) == op
  {
    if op in {RetrieveEntity, RetrieveAttribute, Groupby, Exact, Contains, LessThan, GreaterThan, LessThanEq, GreaterThanEq, And} {
      DecodeNameA(op);
    } else if op in {Or, Not, Collect, Return, Op.Sort, Op.Limit, Op.RowNum, Average, Count, CountUnique} {
      DecodeNameB(op);
    } else if op in {Max, Median, Min, Sum, StdDev, StringAgg, GetOne, Correlation, Add, Subtract} {
      DecodeNameC(op);
    } else {
      DecodeNameD(op);
    }
  }

  lemma DecodeNameA(op: Op)
    requires op in {RetrieveEntity, RetrieveAttribute, Groupby, Exact, Contains, LessThan, GreaterThan, LessThanEq, GreaterThanEq, And}
    ensures |NameOf(op)| >= 2 && Decode(NameOf(op)) == op
  {
  }

  lemma DecodeNameB(op: Op)
    requires op in {Or, Not, Collect, Return, Op.Sort, Op.Limit, Op.RowNum, Average, Count, CountUnique}
    ensures |NameOf(op)| >= 2 && Decode(NameOf(op)) == op
  {
  }

  lemma DecodeNameC(op: Op)
    requires op in {Max, Median, Min, Sum, StdDev, StringAgg, GetOne, Correlation, Add, Subtract}
    ensures |NameOf(op)| >= 2 && Decode(NameOf(op)) == op
  {
  }

  lemma DecodeNameD(op: Op)
    requires op in {Multiply, Divide, Sqrt, Abs, PercentChange, Duration, Percentage}
    ensures |NameOf(op)| >= 2 && Decode(NameOf(op)) == op
  {
  }

  /** Registered names are pairwise distinct. */
  lemma NameOfInjective(a: Op, b: Op)
    ensures NameOf(a) == NameOf(b) ==> a == b
  {
    DecodeName(a);
    DecodeName(b);
  }
}
