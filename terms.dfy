/**
 * The SQL expressions the database interface builds, kept as terms: the
 * SQLAlchemy objects themselves are not part of this model, only which
 * column, subquery column or operation an expression is made of and which
 * transformations and labels wrap it.
 */
module Terms {
  import opened Json

  datatype Term =
      /** `getattr(getattr(db, model), column)`. */
    | ModelColumn(model: string, column: string)
      /** `subqueries[subquery].columns[column]`. */
    | SubqueryColumn(subquery: string, column: string)
      /** A non-field argument passed through to an operation as it is. */
    | Text(text: string)
      /** `op.sqlalchemy_op(fields, db_type)`: the operation's own SQL. */
    | OpApply(op: string, args: seq<Term>, dbType: Json)
      /** `nan_cast(field, null_value)`. */
    | NanCast(inner: Term, nullValue: Json)
      /** `func.round(cast(field, Numeric), places)`. */
    | Round(inner: Term, places: Json)
      /** `field.label(name)`: a term under a column name. */
    | Labelled(name: string, inner: Term)
}
