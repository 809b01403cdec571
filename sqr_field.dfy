/**
 * `core/Analysis/SQRField.py`: a column of a subquery as the query builder
 * records it. The builder makes three kinds: an attribute of an entity of
 * its own subplan, a column taken over from a parent subplan's return, and
 * an operation record (the `{"type", "arguments"}` dictionary with its
 * column name stored as `column_name_override`). Each property of the
 * Python class is a function here; an attribute missing on the value the
 * property reaches is an `AttributeError`, an empty argument list an
 * `IndexError`.
 */
module SqrFields {

  import opened Wrappers
  import opened Text
  import opened Ontology
  import opened ApiUtils

  datatype SQRField =
      /** `SQRField(alias, entity_name=e, field=a)`. */
    | EntityField(subplan: string, entity: string, attribute: string)
      /** `SQRField(alias, field=parent)`: a parent subplan's column. */
    | WrappedField(subplan: string, inner: SQRField)
      /** `SQRField(alias, column_name_override=name, field={"type": kind, "arguments": args})`. */
    | OpField(subplan: string, name: string, kind: string, arguments: seq<Operand>)

  /** An argument of an operation record: a field, or a plain string the plan passed through. */
  datatype Operand = Sub(field: SQRField) | Literal(text: string)

  function NoAttribute(owner: string, attr: string): Error
  {
    AttributeError("'" + owner + "' object has no attribute '" + attr + "'")
  }

  /**
   * `column_name`: the stored name of a record, `E//a` for an entity
   * attribute, and `alias//column` for a parent's column.
   */
  function ColumnName(f: SQRField): (r: Result<string>)
    ensures f.OpField? ==> (r.Ok? <==> f.name != "")
    ensures f.EntityField? ==> (r.Ok? <==> f.entity != "")
    ensures f.EntityField? && r.Ok? ==> r.value == f.entity + "//" + f.attribute
  {
    match f
    case OpField(_, name, _, _) =>
      if name != "" then Ok(name) else Err(NoAttribute("dict", "subplan_name"))
    case EntityField(_, e, a) =>
      if e != "" then Ok(e + "//" + a) else Err(NoAttribute("str", "subplan_name"))
    case WrappedField(_, inner) =>
      var c :- ColumnName(inner);
      Ok(inner.subplan + "//" + c)
  }

  predicate IsAnalysisOperation(f: SQRField)
  {
    f.OpField? && IsAnalysis(f.kind)
  }

  predicate IsArithmeticOperation(f: SQRField)
  {
    f.OpField? && IsArithmetic(f.kind)
  }

  /**
   * `is_analysis_operation` and `is_arithmetic_operation` hold only for an
   * operation record, and never together: no operation name is a key of
   * both tables.
   */
  lemma OperationKindsExclusive(f: SQRField)
    ensures IsAnalysisOperation(f) ==> f.OpField? && !IsArithmeticOperation(f)
    ensures IsArithmeticOperation(f) ==> f.OpField? && !IsAnalysisOperation(f)
  {
    if IsAnalysisOperation(f) && IsArithmeticOperation(f) {
      IsOperationUnique(AnalysisOps, ArithmeticOps, f.kind);
    }
  }

  /** A record whose entity and attribute are those of its first argument. */
  predicate Derived(f: SQRField)
  {
    IsAnalysisOperation(f) || IsArithmeticOperation(f)
  }

  /** `satyrn_entity`. */
  function SatyrnEntity(f: SQRField): Result<Option<string>>
  {
    match f
    case OpField(_, name, kind, args) =>
      if IsAnalysis(kind) || IsArithmetic(kind) then
        if |args| == 0 then Err(IndexError)
        else (match args[0]
          case Literal(_) => Err(NoAttribute("str", "satyrn_entity"))
          case Sub(g) => SatyrnEntity(g))
      else if name != "" then Ok(None)
      else Err(NoAttribute("dict", "satyrn_entity"))
    case EntityField(_, e, _) =>
      if e != "" then Ok(Some(e)) else Err(NoAttribute("str", "satyrn_entity"))
    case WrappedField(_, inner) => SatyrnEntity(inner)
  }

  /** `satyrn_attribute`. */
  function SatyrnAttribute(f: SQRField): Result<Option<string>>
  {
    match f
    case OpField(_, _, kind, args) =>
      if IsAnalysis(kind) || IsArithmetic(kind) then
        if |args| == 0 then Err(IndexError)
        else (match args[0]
          case Literal(_) => Err(NoAttribute("str", "satyrn_attribute"))
          case Sub(g) => SatyrnAttribute(g))
      else Ok(None)
    case EntityField(_, e, a) =>
      if e != "" then Ok(Some(a)) else Err(NoAttribute("str", "satyrn_attribute"))
    case WrappedField(_, inner) => SatyrnAttribute(inner)
  }

  predicate IsCountRecord(f: SQRField)
  {
    f.OpField? && (f.kind == "count" || f.kind == "count_unique")
  }

  /** `has_count_operation`. */
  function HasCountOperation(f: SQRField): Result<bool>
  {
    match f
    case OpField(_, _, kind, args) =>
      if kind == "count" || kind == "count_unique" then Ok(true)
      else if |args| == 0 then Err(IndexError)
      else (match args[0]
        case Literal(_) => Err(NoAttribute("str", "has_count_operation"))
        case Sub(g) => HasCountOperation(g))
    case WrappedField(_, inner) => HasCountOperation(inner)
    case EntityField(_, _, _) => Ok(false)
  }

  // ---------------------------------------------------------------------------
  // The chain of first arguments: what the three properties above inspect.
  // ---------------------------------------------------------------------------

  /**
   * The fields the properties walk through: the field itself, then the
   * parent's column of a wrapper or the first argument of a record, until an
   * entity attribute or a record whose first argument is not a field.
   */
  function Chain(f: SQRField): (c: seq<SQRField>)
    ensures |c| >= 1 && c[0] == f
  {
    match f
    case WrappedField(_, inner) => [f] + Chain(inner)
    case OpField(_, _, _, args) =>
      if |args| > 0 && args[0].Sub? then [f] + Chain(args[0].field) else [f]
    case EntityField(_, _, _) => [f]
  }

  function Last<T>(s: seq<T>): T
    requires |s| > 0
  {
    s[|s| - 1]
  }

  /** Every record on the chain takes its entity from its first argument. */
  predicate AllDerived(c: seq<SQRField>)
  {
    forall i :: 0 <= i < |c| && c[i].OpField? ==> Derived(c[i])
  }

  /** The chain ends at an attribute of a named entity, through derived records only. */
  predicate Anchored(f: SQRField)
  {
    var c := Chain(f);
    AllDerived(c) && Last(c).EntityField? && Last(c).entity != ""
  }

  lemma ChainStep(f: SQRField, g: SQRField)
    requires Chain(f) == [f] + Chain(g)
    ensures Last(Chain(f)) == Last(Chain(g))
    ensures !f.OpField? ==> (AllDerived(Chain(f)) <==> AllDerived(Chain(g)))
    ensures f.OpField? ==> (AllDerived(Chain(f)) <==> Derived(f) && AllDerived(Chain(g)))
    ensures (exists i :: 0 <= i < |Chain(f)| && IsCountRecord(Chain(f)[i])) <==>
      IsCountRecord(f) || exists i :: 0 <= i < |Chain(g)| && IsCountRecord(Chain(g)[i])
  {
    var c, d := Chain(f), Chain(g);
    assert forall i :: 0 < i < |c| ==> c[i] == d[i - 1];
    assert forall i :: 0 <= i < |d| ==> d[i] == c[i + 1];
  }

  /**
   * `satyrn_entity` names an entity exactly when the chain is anchored, and
   * the entity is the one at the end of the chain.
   */
  lemma {:induction false} EntityIsAnchor(f: SQRField)
    ensures SatyrnEntity(f).Ok? && SatyrnEntity(f).value.Some? <==> Anchored(f)
    ensures Anchored(f) ==> SatyrnEntity(f) == Ok(Some(Last(Chain(f)).entity))
  {
    match f
    case EntityField(_, _, _) =>
    case WrappedField(_, inner) =>
      ChainStep(f, inner);
      EntityIsAnchor(inner);
    case OpField(_, _, _, args) =>
      if |args| > 0 && args[0].Sub? {
        ChainStep(f, args[0].field);
        EntityIsAnchor(args[0].field);
      } else {
        assert Chain(f) == [f];
      }
  }

  /** The same for `satyrn_attribute`, which gives the attribute at the end of the chain. */
  lemma {:induction false} AttributeIsAnchor(f: SQRField)
    ensures SatyrnAttribute(f).Ok? && SatyrnAttribute(f).value.Some? <==> Anchored(f)
    ensures Anchored(f) ==> SatyrnAttribute(f) == Ok(Some(Last(Chain(f)).attribute))
  {
    match f
    case EntityField(_, _, _) =>
    case WrappedField(_, inner) =>
      ChainStep(f, inner);
      AttributeIsAnchor(inner);
    case OpField(_, _, _, args) =>
      if |args| > 0 && args[0].Sub? {
        ChainStep(f, args[0].field);
        AttributeIsAnchor(args[0].field);
      } else {
        assert Chain(f) == [f];
      }
  }

  /** So a field has an entity exactly when it has an attribute, both from one entity field. */
  lemma EntityWithAttribute(f: SQRField)
    ensures SatyrnEntity(f).Ok? && SatyrnEntity(f).value.Some? <==>
      SatyrnAttribute(f).Ok? && SatyrnAttribute(f).value.Some?
    ensures SatyrnEntity(f).Ok? && SatyrnEntity(f).value.Some? ==>
      exists s :: EntityField(s, SatyrnEntity(f).value.value, SatyrnAttribute(f).value.value) in Chain(f)
  {
    EntityIsAnchor(f);
    AttributeIsAnchor(f);
    var c := Chain(f);
    if Anchored(f) {
      assert c[|c| - 1] in c;
    }
  }

  /** `has_count_operation` is true exactly when a count record lies on the chain. */
  lemma {:induction false} CountOnChain(f: SQRField)
    ensures HasCountOperation(f) == Ok(true) <==>
      exists i :: 0 <= i < |Chain(f)| && IsCountRecord(Chain(f)[i])
    ensures HasCountOperation(f) == Ok(false) <==>
      Last(Chain(f)).EntityField? && forall i :: 0 <= i < |Chain(f)| ==> !IsCountRecord(Chain(f)[i])
  {
    match f
    case EntityField(_, _, _) =>
    case WrappedField(_, inner) =>
      ChainStep(f, inner);
      CountOnChain(inner);
    case OpField(_, _, _, args) =>
      if IsCountRecord(f) {
        assert Chain(f)[0] == f && IsCountRecord(Chain(f)[0]);
        assert HasCountOperation(f) == Ok(true);
        assert exists i :: 0 <= i < |Chain(f)| && IsCountRecord(Chain(f)[i]);
      } else if |args| > 0 && args[0].Sub? {
        ChainStep(f, args[0].field);
        CountOnChain(args[0].field);
      } else {
        assert Chain(f) == [f];
      }
  }

  // ---------------------------------------------------------------------------
  // _get_op_column_name
  // ---------------------------------------------------------------------------

  /** The name of an argument: a field's column name, or the string itself. */
  function OperandName(x: Operand): Result<string>
  {
    match x
    case Sub(g) => ColumnName(g)
    case Literal(t) => Ok(t)
  }

  function OperandNames(xs: seq<Operand>): (r: Result<seq<string>>)
    ensures r.Ok? ==> |r.value| == |xs|
    ensures r.Ok? ==> forall i :: 0 <= i < |xs| ==> OperandName(xs[i]) == Ok(r.value[i])
    ensures r.Err? <==> exists i :: 0 <= i < |xs| && OperandName(xs[i]).Err?
  {
    if xs == [] then Ok([])
    else
      var n :- OperandName(xs[0]);
      var ns :- OperandNames(xs[1..]);
      Ok([n] + ns)
  }

  /**
   * `_get_op_column_name` of a record: `get_one` keeps its argument's name;
   * any other kind is written `kind(name,name,…)`.
   */
  function OpColumnName(kind: string, args: seq<Operand>): Result<string>
  {
    if kind == "get_one" then
      if |args| == 0 then Err(IndexError) else OperandName(args[0])
    else
      var ns :- OperandNames(args);
      Ok(kind + "(" + Join(",", ns) + ")")
  }

  /**
   * A record's name opens with its kind and a parenthesis and ends with a
   * closing one, the shape `entity_from_subquery_name` takes for an
   * operation column; it fails only when an argument has no name.
   */
  lemma OpColumnNameShape(kind: string, args: seq<Operand>)
    requires kind != "get_one"
    ensures OpColumnName(kind, args).Ok? <==> forall i :: 0 <= i < |args| ==> OperandName(args[i]).Ok?
    ensures OpColumnName(kind, args).Ok? ==>
      StartsWith(OpColumnName(kind, args).value, kind + "(") &&
      EndsWith(OpColumnName(kind, args).value, ")")
  {
    var r := OpColumnName(kind, args);
    if r.Ok? {
      var s := r.value;
      var body := Join(",", OperandNames(args).value);
      assert s == (kind + "(") + (body + ")");
      assert s[..|kind + "("|] == kind + "(";
      assert s[|s| - 1..] == ")";
    }
  }

  /** `get_one` takes over its argument's column name. */
  lemma GetOneKeepsName(g: SQRField, rest: seq<Operand>)
    ensures OpColumnName("get_one", [Sub(g)] + rest) == ColumnName(g)
  {
  }

  lemma OperandNamesSingle(x: Operand)
    requires OperandName(x).Ok?
    ensures OperandNames([x]) == Ok([OperandName(x).value])
  {
    assert [x][0] == x && [x][1..] == [];
    assert OperandNames([]) == Ok([]);
    assert [OperandName(x).value] + [] == [OperandName(x).value];
  }

  /** An operation over one entity attribute is named `kind(E//a)`. */
  lemma OpOverAttribute(kind: string, s: string, e: string, a: string)
    requires kind != "get_one" && e != ""
    ensures OpColumnName(kind, [Sub(EntityField(s, e, a))]) == Ok(kind + "(" + e + "//" + a + ")")
  {
    OperandNamesSingle(Sub(EntityField(s, e, a)));
    assert Join(",", [e + "//" + a]) == e + "//" + a;
    assert kind + "(" + (e + "//" + a) + ")" == kind + "(" + e + "//" + a + ")";
  }

  // ---------------------------------------------------------------------------
  // Column names read back by entity_from_subquery_name
  // ---------------------------------------------------------------------------

  predicate SlashFree(s: string)
  {
    forall k :: 0 <= k < |s| ==> s[k] != '/'
  }

  /** An entity attribute's column decodes to its entity and attribute. */
  lemma EntityColumnDecodes(s: string, e: string, a: string, names: seq<string>)
    requires e != "" && e !in names && a != "" && a[|a| - 1] != ')'
    requires SlashFree(e) && SlashFree(a)
    ensures ColumnName(EntityField(s, e, a)) == Ok(e + "//" + a)
    ensures SubqueryNameSpec(e + "//" + a, names) == Ok(map["entity" := e, "field" := a])
  {
    SubqueryNameOfEntityColumn(e, a, names);
  }

  /**
   * A parent's column taken over by a later subplan is named after the
   * parent subplan; the name still decodes to the entity and attribute once
   * the subquery aliases are dropped.
   */
  lemma WrappedColumnDecodes(outer: string, s: string, e: string, a: string, names: seq<string>)
    requires e != "" && e !in names && a != "" && a[|a| - 1] != ')'
    requires SlashFree(s) && SlashFree(e) && SlashFree(a) && s in names
    ensures ColumnName(WrappedField(outer, EntityField(s, e, a))) == Ok(s + "//" + e + "//" + a)
    ensures SubqueryNameSpec(s + "//" + e + "//" + a, names) == Ok(map["entity" := e, "field" := a])
  {
    assert s + "//" + e + "//" + a == s + "//" + (e + "//" + a);
    SubqueryNameOfEntityColumn(e, a, names);
    AliasPrefixDropped(s, e + "//" + a, names);
  }

  /** A leading subquery alias does not change what a column name decodes to. */
  lemma AliasPrefixDropped(s: string, rest: string, names: seq<string>)
    requires SlashFree(s) && s in names && |rest| > 0
    ensures SubqueryNameSpec(s + "//" + rest, names) == SubqueryNameSpec(rest, names)
  {
    var col := s + "//" + rest;
    assert col[|col| - 1..] == rest[|rest| - 1..];
    SplitSlashFree(s, rest);
    var parts := Split(rest, "//");
    assert ([s] + parts)[0] == s && ([s] + parts)[1..] == parts;
  }

  /** Splitting at "//" a text that starts with a slash-free word cuts that word off. */
  lemma SplitSlashFree(x: string, rest: string)
    requires SlashFree(x)
    ensures Split(x + "//" + rest, "//") == [x] + Split(rest, "//")
  {
    var t := x + "//" + rest;
    assert OccursAt(t, "//", |x|) by { assert t[|x|..|x| + 2] == "//"; }
    forall j | 0 <= j < |x| ensures !OccursAt(t, "//", j) {
      OccursHead(t, "//", j);
      assert t[j] == x[j];
    }
    assert IndexOf(t, "//") == Some(|x|);
    assert t[..|x|] == x;
    assert t[|x| + 2..] == rest;
  }
}
