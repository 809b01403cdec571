/**
 * `core/Analysis/QueryArguments.py`: the mutable record a subquery is
 * assembled in. The query builder appends to its lists and dictionary, the
 * engine fills its query fields and joins, and the join step adds tables.
 */
module QueryArgs {

  import opened Wrappers
  import opened Dicts
  import opened Terms
  import opened SqrFields

  /**
   * What `filter` or `having` holds: None when the argument is omitted, the
   * empty list the builder passes, or the condition field stored later.
   */
  datatype Condition = Omitted | NoCondition | Where(field: SQRField)
  {
    /** Python truthiness: only a stored condition counts. */
    predicate Present() { Where? }
  }

  /** A sort request `{'attribute': name, 'direction': dir}`. */
  datatype SortAttribute = SortAttribute(attribute: string, direction: string)

  /** The whole state of a `QueryArguments` object, as a value. */
  datatype Snapshot = Snapshot(
    queryFields: seq<Term>,
    tables: set<string>,
    sqrfields: Dict<SQRField>,
    joinsTodo: set<string>,
    select: seq<string>,
    groupBys: seq<string>,
    sortAttributes: seq<SortAttribute>,
    filter: Condition,
    having: Condition,
    limit: Option<string>,
    froms: seq<string>)

  /** The state of `QueryArguments([], set(), {}, set(), [], [], [], [], [], [])`. */
  const Fresh: Snapshot :=
    Snapshot([], {}, [], {}, [], [], [], NoCondition, NoCondition, None, [])

  class QueryArguments {
    var queryFields: seq<Term>
    var tables: set<string>
    var sqrfields: Dict<SQRField>
    var joinsTodo: set<string>
    var select: seq<string>
    var groupBys: seq<string>
    var sortAttributes: seq<SortAttribute>
    var filter: Condition
    var having: Condition
    var limit: Option<string>
    var froms: seq<string>

    /** Stores every argument as given; `limit` always starts unset. */
    constructor(queryFields: seq<Term>, tables: set<string>, sqrfields: Dict<SQRField>,
                joinsTodo: set<string>, select: seq<string>, groupBys: seq<string>,
                sortAttributes: seq<SortAttribute>, filter: Condition, having: Condition,
                froms: seq<string>)
      ensures Snap() == Snapshot(queryFields, tables, sqrfields, joinsTodo, select, groupBys,
        sortAttributes, filter, having, None, froms)
    {
      this.queryFields := queryFields;
      this.tables := tables;
      this.sqrfields := sqrfields;
      this.joinsTodo := joinsTodo;
      this.select := select;
      this.groupBys := groupBys;
      this.sortAttributes := sortAttributes;
      this.filter := filter;
      this.having := having;
      this.limit := None;
      this.froms := froms;
    }

    /** The constructor with `filter` and `having` omitted. */
    constructor WithoutConditions(queryFields: seq<Term>, tables: set<string>,
                                  sqrfields: Dict<SQRField>, joinsTodo: set<string>,
                                  select: seq<string>, groupBys: seq<string>,
                                  sortAttributes: seq<SortAttribute>, froms: seq<string>)
      ensures Snap() == Snapshot(queryFields, tables, sqrfields, joinsTodo, select, groupBys,
        sortAttributes, Omitted, Omitted, None, froms)
    {
      this.queryFields := queryFields;
      this.tables := tables;
      this.sqrfields := sqrfields;
      this.joinsTodo := joinsTodo;
      this.select := select;
      this.groupBys := groupBys;
      this.sortAttributes := sortAttributes;
      this.filter := Omitted;
      this.having := Omitted;
      this.limit := None;
      this.froms := froms;
    }

    function Snap(): Snapshot
      reads this
    {
      Snapshot(queryFields, tables, sqrfields, joinsTodo, select, groupBys, sortAttributes,
        filter, having, limit, froms)
    }
  }
}
