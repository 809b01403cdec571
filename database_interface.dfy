/**
 * `core/DatabaseInterface.py`: the translation of a subquery's fields into
 * SQL expressions. An entity attribute becomes a column of the table its
 * source names (a date-suffixed attribute the base attribute's first
 * column with the suffix appended), wrapped in the null cast and rounding
 * its formatting asks for; a parent subplan's column is looked up in the
 * parent's subquery; an operation record becomes the operation applied to
 * its arguments' expressions, with the union of the joins they need.
 */
module DatabaseInterfaces {

  import opened Wrappers
  import opened Dicts
  import opened Json
  import opened Terms
  import opened ApiUtils
  import opened OpNames
  import opened Ontology
  import opened SqrFields
  import opened RingAttributes
  import opened RingEntities
  import opened Rings

  /**
   * What the translation consults: the ring's entities, the SQLAlchemy
   * models of the database (by class name, each with its column
   * attributes), the subqueries already built (by alias, each with its
   * column names) and `ring.get_db_type()`.
   */
  datatype Context = Context(
    entities: seq<EntityState>,
    models: Dict<seq<string>>,
    subqueries: Dict<seq<string>>,
    dbType: Json)

  // ---------------------------------------------------------------------------
  // get_sqlalchemy_field
  // ---------------------------------------------------------------------------

  /** `j[0]` for the values a ring stores its column lists in. */
  function First(j: Json): (r: Result<Json>)
    ensures j.JList? ==> (r.Ok? <==> j.items != []) && (r.Ok? ==> r.value == j.items[0])
    ensures j.JStr? && r.Ok? ==> j.s != [] && r.value == JStr([j.s[0]])
    ensures r.Err? && (j.JList? || j.JStr?) ==> r.error == IndexError
  {
    match j
    case JList(l) => if l == [] then Err(IndexError) else Ok(l[0])
    case JStr(s) => if s == [] then Err(IndexError) else Ok(JStr([s[0]]))
    case JObj(_) => Err(KeyError("0"))
    case _ => Err(TypeError("object is not subscriptable"))
  }

  /** `entity_obj.id[0]`: the first identifier column; an entity without ids raises TypeError. */
  function FirstId(id: Option<seq<Json>>): (r: Result<Json>)
    ensures r.Ok? <==> id.Some? && id.value != []
    ensures r.Ok? ==> r.value == id.value[0]
  {
    match id
    case None => Err(TypeError("'NoneType' object is not subscriptable"))
    case Some(ids) => if ids == [] then Err(IndexError) else Ok(ids[0])
  }

  /**
   * The model name, field name and attribute object `get_sqlalchemy_field`
   * settles on for an attribute of an entity: the primary table and first
   * id column for `id` (no attribute object), otherwise the source table
   * and first source column of the attribute, where a date-suffixed name
   * is looked up by its base and the suffix is appended to the column.
   */
  function ColumnOf(e: EntityState, attr: string): Result<(Json, Json, Option<AttributeState>)>
  {
    if attr != "id" then
      match DateDenomination(attr)
      case Some((base, suffix)) =>
        var a :- AttributeNamed(e, base);
        var c :- First(a.source.columns);
        Ok((a.source.table, JStr(PyStr(c) + suffix), Some(a)))
      case None =>
        var a :- AttributeNamed(e, attr);
        var c :- First(a.source.columns);
        Ok((a.source.table, c, Some(a)))
    else
      var c :- FirstId(e.id);
      Ok((e.primaryTable, c, None))
  }

  /** `getattr(getattr(db, model), field)`: both names must be strings and both attributes exist. */
  function ModelField(models: Dict<seq<string>>, model: Json, field: Json): (r: Result<Term>)
    ensures r.Ok? <==> model.JStr? && field.JStr? && HasKey(models, model.s) && field.s in Get(models, model.s).value
    ensures r.Ok? ==> r == Ok(ModelColumn(model.s, field.s))
  {
    if !model.JStr? then Err(TypeError("attribute name must be string"))
    else match Get(models, model.s)
      case None => Err(AttributeError("'DBWrapper' object has no attribute '" + model.s + "'"))
      case Some(columns) =>
        if !field.JStr? then Err(TypeError("attribute name must be string"))
        else if field.s in columns then Ok(ModelColumn(model.s, field.s))
        else Err(AttributeError("type object '" + model.s + "' has no attribute '" + field.s + "'"))
  }

  /** The null handling of `apply_field_transformations`: only for an attribute whose null handling is "cast". */
  function CastNulls(field: Term, attr: Option<AttributeState>): Term
  {
    if attr.Some? && attr.value.formatting.nullHandling == JStr("cast") then
      NanCast(field, attr.value.formatting.nullValue)
    else field
  }

  /** `apply_field_transformations`: the null cast, then rounding to `sig_figs` when `rounding` is the string "True". */
  function Transform(field: Term, attr: Option<AttributeState>): Term
  {
    var t := CastNulls(field, attr);
    if attr.Some? && attr.value.formatting.rounding == JStr("True") then Round(t, attr.value.formatting.sigFigs)
    else t
  }

  /**
   * The null cast applies exactly when the attribute's null handling is
   * "cast", and wraps the field itself; rounding applies exactly when its
   * rounding is "True", as the outermost layer; without an attribute object
   * the field is unchanged.
   */
  lemma TransformMeaning(field: Term, attr: Option<AttributeState>)
    ensures attr.None? ==> Transform(field, attr) == field
    ensures attr.Some? ==>
      var fm := attr.value.formatting;
      var c := CastNulls(field, attr);
      && (fm.nullHandling == JStr("cast") ==> c == NanCast(field, fm.nullValue))
      && (fm.nullHandling != JStr("cast") ==> c == field)
      && (fm.rounding == JStr("True") ==> Transform(field, attr) == Round(c, fm.sigFigs))
      && (fm.rounding != JStr("True") ==> Transform(field, attr) == c)
    ensures Transform(field, attr) == field <==>
      (attr.None? || (attr.value.formatting.nullHandling != JStr("cast") && attr.value.formatting.rounding != JStr("True")))
  {
    if attr.Some? {
      var c := CastNulls(field, attr);
      assert c == field || field < c;
      if attr.value.formatting.rounding == JStr("True") {
        assert c < Transform(field, attr);
      }
    }
  }

  /**
   * `get_sqlalchemy_field(ring, sqrfield, field=given)`. Only a field with
   * an entity name is looked up: its model column (unless a column is
   * given) under the transformations of its attribute. Any other field
   * yields the given column, or None, as it is.
   */
  function SqlalchemyField(ctx: Context, f: SQRField, given: Option<Term>): (r: Result<Option<Term>>)
    ensures !(f.EntityField? && f.entity != "") ==> r == Ok(given)
    ensures f.EntityField? && f.entity != "" && r.Ok? ==> r.value.Some?
  {
    if f.EntityField? && f.entity != "" then
      var e :- EntityByName(ctx.entities, JStr(f.entity));
      var choice :- ColumnOf(e, f.attribute);
      var (model, column, attr) := choice;
      var field :- match given
        case Some(t) => Ok(t)
        case None => ModelField(ctx.models, model, column);
      Ok(Some(Transform(field, attr)))
    else
      Ok(given)
  }

  /**
   * The column an attribute of an entity is read from: the id is the
   * primary table's first id column, a date-suffixed attribute the base
   * attribute's first source column with the suffix appended, any other
   * attribute its first source column, each under its attribute's
   * transformations; a missing entity raises IndexError and a missing
   * attribute KeyError.
   */
  lemma SqlalchemyFieldColumn(ctx: Context, subplan: string, entity: string, attr: string)
    requires entity != ""
    ensures var r := SqlalchemyField(ctx, EntityField(subplan, entity, attr), None);
      var found := EntityByName(ctx.entities, JStr(entity));
      && (found.Err? ==> r == Err(IndexError))
      && (found.Ok? && attr == "id" && found.value.id.Some? && found.value.id.value != [] ==>
            r == match ModelField(ctx.models, found.value.primaryTable, found.value.id.value[0])
              case Ok(t) => Ok(Some(t))
              case Err(err) => Err(err))
      && (found.Ok? && attr != "id" ==>
            match DateDenomination(attr)
            case Some((base, suffix)) =>
              && (!HasKey(found.value.attributes, base) ==> r == Err(KeyError(base)))
              && (HasKey(found.value.attributes, base) ==>
                    var a := Get(found.value.attributes, base).value;
                    a.source.columns.JList? && a.source.columns.items != [] ==>
                      r == match ModelField(ctx.models, a.source.table, JStr(PyStr(a.source.columns.items[0]) + suffix))
                        case Ok(t) => Ok(Some(Transform(t, Some(a))))
                        case Err(err) => Err(err))
            case None =>
              && (!HasKey(found.value.attributes, attr) ==> r == Err(KeyError(attr)))
              && (HasKey(found.value.attributes, attr) ==>
                    var a := Get(found.value.attributes, attr).value;
                    a.source.columns.JList? && a.source.columns.items != [] ==>
                      r == match ModelField(ctx.models, a.source.table, a.source.columns.items[0])
                        case Ok(t) => Ok(Some(Transform(t, Some(a))))
                        case Err(err) => Err(err)))
  {
  }

  /** A column handed in is kept: only the transformations of the field's attribute are added to it. */
  lemma GivenColumnKept(ctx: Context, f: SQRField, t: Term)
    requires f.EntityField? && f.entity != ""
    requires EntityByName(ctx.entities, JStr(f.entity)).Ok?
    requires ColumnOf(EntityByName(ctx.entities, JStr(f.entity)).value, f.attribute).Ok?
    ensures SqlalchemyField(ctx, f, Some(t)) ==
      Ok(Some(Transform(t, ColumnOf(EntityByName(ctx.entities, JStr(f.entity)).value, f.attribute).value.2)))
  {
  }

  // ---------------------------------------------------------------------------
  // get_field_label_and_name_and_joins_todo
  // ---------------------------------------------------------------------------

  /**
   * `get_field_label_and_name_and_joins_todo`: the joins of the field's
   * entity attribute and its expression under the field's column name. A
   * field without an attribute fails in the join lookup; a field without
   * an entity name has no expression to label.
   */
  function FieldLabelAndJoins(ctx: Context, f: SQRField): (r: Result<(Term, set<Json>)>)
  {
    var entity :- SatyrnEntity(f);
    var attr :- SatyrnAttribute(f);
    var entityName := match entity case Some(s) => JStr(s) case None => JNull;
    var joins :- match attr
      case Some(a) => AttributeJoins(ctx.entities, entityName, a)
      case None => (var _ :- EntityByName(ctx.entities, entityName); Err(TypeError("expected string or bytes-like object")));
    var field :- SqlalchemyField(ctx, f, None);
    if field.None? then Err(AttributeError("'NoneType' object has no attribute 'label'"))
    else
      var name :- ColumnName(f);
      Ok((Labelled(name, field.value), joins))
  }

  /**
   * For an entity attribute, the label is the field's column name `E//a`
   * over the attribute's expression, and the joins are exactly those
   * `get_attribute_joins` gives for the attribute.
   */
  lemma FieldLabelAndJoinsOfAttribute(ctx: Context, subplan: string, entity: string, attr: string)
    requires entity != ""
    ensures var f := EntityField(subplan, entity, attr);
      var r := FieldLabelAndJoins(ctx, f);
      var joins := AttributeJoins(ctx.entities, JStr(entity), attr);
      var field := SqlalchemyField(ctx, f, None);
      && (joins.Err? ==> r == Err(joins.error))
      && (joins.Ok? && field.Err? ==> r == Err(field.error))
      && (joins.Ok? && field.Ok? ==> r == Ok((Labelled(entity + "//" + attr, field.value.value), joins.value)))
  {
  }

  /** A parent subplan's column has no entity name: it cannot be labelled here. */
  lemma FieldLabelOfWrapped(ctx: Context, subplan: string, inner: SQRField)
    requires SatyrnEntity(inner).Ok? && SatyrnAttribute(inner).Ok? && SatyrnAttribute(inner).value.Some?
    ensures FieldLabelAndJoins(ctx, WrappedField(subplan, inner)).Err?
  {
  }

  // ---------------------------------------------------------------------------
  // get_field_label_and_joins_for_operation
  // ---------------------------------------------------------------------------

  /** The operations whose result `get_field_label_and_joins_for_operation` rounds to two places. */
  const RoundedOps: seq<string> := ["average", "stddev", "divide", "percent_change"]

  /**
   * `subqueries[inner.subplan_name].columns[inner.column_name]`: a KeyError
   * for an alias without a subquery or a column the subquery lacks.
   */
  function SubqueryColumnOf(ctx: Context, inner: SQRField): (r: Result<Term>)
    ensures r.Ok? <==> (HasKey(ctx.subqueries, inner.subplan) && ColumnName(inner).Ok? &&
      ColumnName(inner).value in Get(ctx.subqueries, inner.subplan).value)
    ensures r.Ok? ==> r.value == SubqueryColumn(inner.subplan, ColumnName(inner).value)
  {
    match Get(ctx.subqueries, inner.subplan)
    case None => Err(KeyError(inner.subplan))
    case Some(columns) =>
      var name :- ColumnName(inner);
      if name in columns then Ok(SubqueryColumn(inner.subplan, name)) else Err(KeyError(name))
  }

  /**
   * The expression and joins of the `i`-th argument of an operation record:
   * a plain argument as it is, a parent's column from its subquery, a
   * nested record recursively, and an entity attribute with its joins; an
   * attribute field without an entity name is the impossible case the
   * source raises for.
   */
  function ArgumentTerm(ctx: Context, f: SQRField, i: nat): Result<(Term, set<Json>)>
    requires f.OpField? && i < |f.arguments|
    decreases f, 0
  {
    match f.arguments[i]
    case Literal(t) => Ok((Text(t), {}))
    case Sub(g) =>
      match g
      case WrappedField(_, inner) =>
        var column :- SubqueryColumnOf(ctx, inner);
        var field := SqlalchemyField(ctx, g, Some(column));
        Ok((field.value.value, {}))
      case OpField(_, _, _, _) => OperationLabelAndJoins(ctx, g)
      case EntityField(_, entity, attr) =>
        if entity == "" then Err(Exception("This shouldn't happen!"))
        else
          var joins :- AttributeJoins(ctx.entities, JStr(entity), attr);
          var field :- SqlalchemyField(ctx, g, None);
          Ok((field.value, joins))
  }

  /** The argument translations of an operation record, by position. */
  function Steps(ctx: Context, f: SQRField): nat -> Result<(Term, set<Json>)>
    requires f.OpField?
    decreases f, 1
  {
    (k: nat) => if k < |f.arguments| then ArgumentTerm(ctx, f, k) else Err(IndexError)
  }

  /**
   * `get_field_label_and_joins_for_operation`: the record's operation
   * applied to its arguments' expressions (rounded to two places for the
   * operations of `RoundedOps`) under the record's column name, with the
   * joins of all its arguments. A kind the ontology does not know raises
   * ValueError before any argument is looked at.
   */
  function OperationLabelAndJoins(ctx: Context, f: SQRField): Result<(Term, set<Json>)>
    requires f.OpField?
    decreases f, 2
  {
    var op :- ResolveOperation(f.kind);
    var collected :- Collect(Steps(ctx, f), |f.arguments|, 0, [], {});
    var applied := OpApply(f.kind, collected.0, ctx.dbType);
    var field := if NameOf(op) in RoundedOps then Round(applied, JInt(2)) else applied;
    var name :- ColumnName(f);
    Ok((Labelled(name, field), collected.1))
  }

  // ---------------------------------------------------------------------------
  // The loop over the arguments
  // ---------------------------------------------------------------------------

  /**
   * The loop over arguments `i` to `n` of an operation record, given the
   * translation of each, with the expressions and joins collected so far:
   * the first failing argument ends it.
   */
  function Collect(step: nat -> Result<(Term, set<Json>)>, n: nat, i: nat, fields: seq<Term>, joins: set<Json>): Result<(seq<Term>, set<Json>)>
    requires i <= n
    decreases n - i
  {
    if i == n then Ok((fields, joins))
    else
      var t :- step(i);
      Collect(step, n, i + 1, fields + [t.0], joins + t.1)
  }

  /** One pass of the loop: a failing argument ends it, a translated one is collected. */
  lemma CollectAdvance(step: nat -> Result<(Term, set<Json>)>, n: nat, i: nat, fields: seq<Term>, joins: set<Json>)
    requires i < n
    ensures step(i).Err? ==> Collect(step, n, i, fields, joins) == Err(step(i).error)
    ensures step(i).Ok? ==> Collect(step, n, i, fields, joins) == Collect(step, n, i + 1, fields + [step(i).value.0], joins + step(i).value.1)
  {
  }

  /** The loop succeeds exactly when every remaining argument does. */
  lemma {:induction false} CollectOk(step: nat -> Result<(Term, set<Json>)>, n: nat, i: nat, fields: seq<Term>, joins: set<Json>)
    requires i <= n
    ensures Collect(step, n, i, fields, joins).Ok? ==> forall k :: i <= k < n ==> step(k).Ok?
    ensures (forall k :: i <= k < n ==> step(k).Ok?) ==> Collect(step, n, i, fields, joins).Ok?
    decreases n - i
  {
    if i < n && step(i).Ok? {
      CollectOk(step, n, i + 1, fields + [step(i).value.0], joins + step(i).value.1);
    }
  }

  /** The loop keeps the expressions collected so far and adds one per remaining argument, in order. */
  lemma {:induction false} CollectFields(step: nat -> Result<(Term, set<Json>)>, n: nat, i: nat, fields: seq<Term>, joins: set<Json>)
    requires i <= n && Collect(step, n, i, fields, joins).Ok?
    ensures var out := Collect(step, n, i, fields, joins).value.0;
      && |out| == |fields| + n - i
      && out[..|fields|] == fields
      && forall k :: i <= k < n ==> step(k).Ok? && out[|fields| + k - i] == step(k).value.0
    decreases n - i
  {
    if i < n {
      var t := step(i).value;
      var fields' := fields + [t.0];
      CollectFields(step, n, i + 1, fields', joins + t.1);
      var out := Collect(step, n, i, fields, joins).value.0;
      assert out[..|fields|] == out[..|fields'|][..|fields|];
      assert out[|fields|] == fields'[|fields|];
    }
  }

  /** Some argument from the `i`-th to the `n`-th needs the join `x`. */
  predicate NeededFrom(step: nat -> Result<(Term, set<Json>)>, n: nat, i: nat, x: Json)
  {
    exists k :: i <= k < n && step(k).Ok? && x in step(k).value.1
  }

  /** The loop's joins are those collected so far and those of the remaining arguments. */
  lemma {:induction false} CollectJoins(step: nat -> Result<(Term, set<Json>)>, n: nat, i: nat, fields: seq<Term>, joins: set<Json>)
    requires i <= n && Collect(step, n, i, fields, joins).Ok?
    ensures forall x :: x in Collect(step, n, i, fields, joins).value.1 <==> x in joins || NeededFrom(step, n, i, x)
    decreases n - i
  {
    if i < n {
      var t := step(i).value;
      var joins' := joins + t.1;
      CollectJoins(step, n, i + 1, fields + [t.0], joins');
      var out := Collect(step, n, i, fields, joins).value.1;
      forall x
        ensures x in out <==> x in joins || NeededFrom(step, n, i, x)
      {
        if NeededFrom(step, n, i, x) {
          var k :| i <= k < n && step(k).Ok? && x in step(k).value.1;
          if k > i {
            assert NeededFrom(step, n, i + 1, x);
          }
        }
        if x in t.1 {
          assert NeededFrom(step, n, i, x);
        }
        if NeededFrom(step, n, i + 1, x) {
          var k :| i + 1 <= k < n && step(k).Ok? && x in step(k).value.1;
          assert NeededFrom(step, n, i, x);
        }
      }
    }
  }

  // ---------------------------------------------------------------------------
  // What an operation record translates to
  // ---------------------------------------------------------------------------

  /** Which arguments need joins: plain arguments and parents' columns none, attributes their own, nested records theirs. */
  lemma ArgumentJoins(ctx: Context, f: SQRField, i: nat)
    requires f.OpField? && i < |f.arguments| && ArgumentTerm(ctx, f, i).Ok?
    ensures f.arguments[i].Literal? ==> ArgumentTerm(ctx, f, i).value == (Text(f.arguments[i].text), {})
    ensures f.arguments[i].Sub? && f.arguments[i].field.WrappedField? ==>
      ArgumentTerm(ctx, f, i).value.1 == {} &&
      ArgumentTerm(ctx, f, i).value.0 == SubqueryColumn(f.arguments[i].field.inner.subplan, ColumnName(f.arguments[i].field.inner).value)
    ensures f.arguments[i].Sub? && f.arguments[i].field.EntityField? ==>
      var g := f.arguments[i].field;
      g.entity != "" && ArgumentTerm(ctx, f, i).value.1 == AttributeJoins(ctx.entities, JStr(g.entity), g.attribute).value
    ensures f.arguments[i].Sub? && f.arguments[i].field.OpField? ==>
      ArgumentTerm(ctx, f, i) == OperationLabelAndJoins(ctx, f.arguments[i].field)
  {
  }

  /** An attribute argument without an entity name is rejected with the source's own exception. */
  lemma EntitylessArgumentRaises(ctx: Context, f: SQRField, i: nat)
    requires f.OpField? && i < |f.arguments|
    requires f.arguments[i].Sub? && f.arguments[i].field.EntityField? && f.arguments[i].field.entity == ""
    ensures ArgumentTerm(ctx, f, i) == Err(Exception("This shouldn't happen!"))
  {
  }

  /**
   * What an operation record translates to: its column name over the
   * operation applied to one expression per argument, in order, rounded to
   * two places exactly when the operation is one of `RoundedOps`.
   */
  lemma OperationLabel(ctx: Context, f: SQRField)
    requires f.OpField? && OperationLabelAndJoins(ctx, f).Ok?
    ensures var t := OperationLabelAndJoins(ctx, f).value.0;
      && ResolveOperation(f.kind).Ok? && f.name != ""
      && t.Labelled? && t.name == f.name
      && (t.inner.Round? <==> f.kind in RoundedOps)
      && (t.inner.Round? ==> t.inner.places == JInt(2))
      && var applied := if t.inner.Round? then t.inner.inner else t.inner;
      && applied.OpApply? && applied.op == f.kind && applied.dbType == ctx.dbType
      && |applied.args| == |f.arguments|
      && forall k :: 0 <= k < |f.arguments| ==>
           ArgumentTerm(ctx, f, k).Ok? && applied.args[k] == ArgumentTerm(ctx, f, k).value.0
  {
    var op := ResolveOperation(f.kind).value;
    assert NameOf(op) == f.kind;
    var step := Steps(ctx, f);
    CollectFields(step, |f.arguments|, 0, [], {});
    forall k | 0 <= k < |f.arguments|
      ensures step(k) == ArgumentTerm(ctx, f, k)
    {
    }
  }

  /** Some argument of an operation record needs the join `x`. */
  predicate NeededBy(ctx: Context, f: SQRField, x: Json)
    requires f.OpField?
  {
    exists k :: 0 <= k < |f.arguments| && ArgumentTerm(ctx, f, k).Ok? && x in ArgumentTerm(ctx, f, k).value.1
  }

  /** An operation record needs exactly the joins its arguments need. */
  lemma OperationJoins(ctx: Context, f: SQRField)
    requires f.OpField? && OperationLabelAndJoins(ctx, f).Ok?
    ensures forall x :: x in OperationLabelAndJoins(ctx, f).value.1 <==> NeededBy(ctx, f, x)
  {
    var step := Steps(ctx, f);
    CollectJoins(step, |f.arguments|, 0, [], {});
    forall x
      ensures NeededFrom(step, |f.arguments|, 0, x) <==> NeededBy(ctx, f, x)
    {
      if NeededFrom(step, |f.arguments|, 0, x) {
        var k :| 0 <= k < |f.arguments| && step(k).Ok? && x in step(k).value.1;
        assert step(k) == ArgumentTerm(ctx, f, k);
      }
      if NeededBy(ctx, f, x) {
        var k :| 0 <= k < |f.arguments| && ArgumentTerm(ctx, f, k).Ok? && x in ArgumentTerm(ctx, f, k).value.1;
        assert step(k) == ArgumentTerm(ctx, f, k);
      }
    }
  }

  /** The translation fails exactly when the kind is unknown, an argument fails, or the record has no column name. */
  lemma OperationFails(ctx: Context, f: SQRField)
    requires f.OpField?
    ensures ResolveOperation(f.kind).Err? ==> OperationLabelAndJoins(ctx, f) == Err(ResolveOperation(f.kind).error)
    ensures OperationLabelAndJoins(ctx, f).Ok? ==> f.name != "" && forall k :: 0 <= k < |f.arguments| ==> ArgumentTerm(ctx, f, k).Ok?
    ensures ResolveOperation(f.kind).Ok? && f.name != "" && (forall k :: 0 <= k < |f.arguments| ==> ArgumentTerm(ctx, f, k).Ok?) ==>
      OperationLabelAndJoins(ctx, f).Ok?
  {
    var step := Steps(ctx, f);
    CollectOk(step, |f.arguments|, 0, [], {});
    forall k | 0 <= k < |f.arguments|
      ensures step(k) == ArgumentTerm(ctx, f, k)
    {
    }
  }

  /** One pass of the loop in `get_field_label_and_joins_for_operation`: the translation of the `i`-th argument. */
  method ArgumentStep(ctx: Context, f: SQRField, i: nat) returns (step: Result<(Term, set<Json>)>)
    requires f.OpField? && i < |f.arguments|
    ensures step == ArgumentTerm(ctx, f, i)
    decreases f, 0
  {
    match f.arguments[i] {
      case Literal(t) =>
        step := Ok((Text(t), {}));
      case Sub(g) =>
        match g {
          case WrappedField(_, inner) =>
            // A parent's column: taken from its subquery, with no joins.
            var column := SubqueryColumnOf(ctx, inner);
            if column.Err? {
              step := Err(column.error);
            } else {
              var field := SqlalchemyField(ctx, g, Some(column.value));
              step := Ok((field.value.value, {}));
            }
          case OpField(_, _, _, _) =>
            step := GetFieldLabelAndJoinsForOperation(ctx, g);
          case EntityField(_, entity, attr) =>
            if entity == "" {
              step := Err(Exception("This shouldn't happen!"));
            } else {
              var joins := AttributeJoins(ctx.entities, JStr(entity), attr);
              if joins.Err? {
                step := Err(joins.error);
              } else {
                var field := SqlalchemyField(ctx, g, None);
                step := if field.Ok? then Ok((field.value.value, joins.value)) else Err(field.error);
              }
            }
        }
    }
  }

  /** `get_field_label_and_joins_for_operation` with its loop over the arguments. */
  method GetFieldLabelAndJoinsForOperation(ctx: Context, f: SQRField) returns (r: Result<(Term, set<Json>)>)
    requires f.OpField?
    ensures r == OperationLabelAndJoins(ctx, f)
    decreases f, 1
  {
    var resolved := ResolveOperation(f.kind);
    if resolved.Err? {
      return Err(resolved.error);
    }
    var op := resolved.value;
    ghost var steps := Steps(ctx, f);
    var joinsTodo: set<Json> := {};
    var fields: seq<Term> := [];
    var i := 0;
    while i < |f.arguments|
      invariant 0 <= i <= |f.arguments|
      invariant Collect(steps, |f.arguments|, 0, [], {}) == Collect(steps, |f.arguments|, i, fields, joinsTodo)
    {
      var step := ArgumentStep(ctx, f, i);
      assert step == steps(i);
      CollectAdvance(steps, |f.arguments|, i, fields, joinsTodo);
      if step.Err? {
        return Err(step.error);
      }
      joinsTodo := joinsTodo + step.value.1;
      fields := fields + [step.value.0];
      i := i + 1;
    }
    var opField := OpApply(f.kind, fields, ctx.dbType);
    if NameOf(op) in RoundedOps {
      opField := Round(opField, JInt(2));
    }
    var name := ColumnName(f);
    if name.Err? {
      return Err(name.error);
    }
    r := Ok((Labelled(name.value, opField), joinsTodo));
  }
}
