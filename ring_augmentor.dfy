/**
 * `core/RingAugmentor.py`: completes a parsed ring in place with an
 * access plan for every attribute, and with derived attributes that
 * aggregate (or count) the attributes of related entities grouped by the
 * target entity's identifier.
 */
module RingAugmentors {

  import opened Wrappers
  import opened Dicts
  import opened Json
  import opened ArgTypes
  import opened OpNames
  import opened Operations
  import opened Ontology
  import opened RingAttributes
  import opened RingEntities
  import opened RingRelationships
  import opened Rings
  import opened BlueprintUtils

  // ---------------------------------------------------------------------------
  // The operations the augmentor aggregates with
  // ---------------------------------------------------------------------------

  /** The names `get_count_operations` asks for. */
  const CountNames: set<string> := {"count_unique"}

  /** The names `get_metric_aggregation_operations` asks for; "std_dev" is not a registered name. */
  const MetricNames: set<string> := {"average", "max", "min", "median", "sum", "std_dev"}

  /**
   * `[analysis_operations[op] for op in names if op in analysis_operations]`,
   * with `names` listed in the order the set literal is iterated (an order
   * Python leaves to string hashing).
   */
  function RegisteredAnalysis(names: seq<string>): seq<Op>
  {
    if names == [] then []
    else
      RegisteredAnalysis(names[..|names| - 1]) +
      match Lookup(names[|names| - 1], Table(AnalysisOps)) case Some(op) => [op] case None => []
  }

  /** `get_count_operations()`, the set literal iterated in `order`. */
  function CountOperations(order: seq<string>): seq<Op>
  {
    RegisteredAnalysis(order)
  }

  /** `get_metric_aggregation_operations()`, the set literal iterated in `order`. */
  function MetricAggregationOperations(order: seq<string>): seq<Op>
  {
    RegisteredAnalysis(order)
  }

  /** The analysis table has the class registered under `name`, if any. */
  lemma LookupAnalysisIff(name: string, op: Op)
    ensures Lookup(name, Table(AnalysisOps)) == Some(op) <==> CategoryOf(op) == AnalysisOps && NameOf(op) == name
  {
    var r := Lookup(name, Table(AnalysisOps));
    if r.Some? {
      AnalysisTable(r.value);
      NameOfInjective(op, r.value);
    }
    if CategoryOf(op) == AnalysisOps && NameOf(op) == name {
      AnalysisTableComplete(op);
    }
  }

  /** An operation is listed exactly when one of the names is its registered analysis name. */
  lemma {:induction false} RegisteredAnalysisMembers(names: seq<string>, op: Op)
    ensures op in RegisteredAnalysis(names) <==> CategoryOf(op) == AnalysisOps && NameOf(op) in names
  {
    if names != [] {
      var front, last := names[..|names| - 1], names[|names| - 1];
      RegisteredAnalysisMembers(front, op);
      LookupAnalysisIff(last, op);
      var tail := match Lookup(last, Table(AnalysisOps)) case Some(o) => [o] case None => [];
      assert RegisteredAnalysis(names) == RegisteredAnalysis(front) + tail;
      assert op in tail <==> Lookup(last, Table(AnalysisOps)) == Some(op);
      InSnoc(front, last, NameOf(op));
    }
  }

  /** No item of `s` occurs twice. */
  predicate NoRepeats<T(==)>(s: seq<T>)
  {
    forall i, j :: 0 <= i < j < |s| ==> s[i] != s[j]
  }

  /** `x in s + [y]` exactly when `x in s` or `x == y`. */
  lemma InSnoc<T>(s: seq<T>, y: T, x: T)
    ensures s + [y] == s[..] + [y]
    ensures var t := s + [y]; t[..|s|] == s && (x in t <==> x in s || x == y)
  {
  }

  /** Distinct names give distinct operations. */
  lemma {:induction false} RegisteredAnalysisDistinct(names: seq<string>)
    requires NoRepeats(names)
    ensures NoRepeats(RegisteredAnalysis(names))
  {
    if names != [] {
      var front, last := names[..|names| - 1], names[|names| - 1];
      RegisteredAnalysisDistinct(front);
      var l := Lookup(last, Table(AnalysisOps));
      if l.Some? {
        RegisteredAnalysisMembers(front, l.value);
        LookupAnalysisIff(last, l.value);
        assert last !in front;
      }
    }
  }

  /** `get_count_operations` gives count_unique, which is registered, and nothing else. */
  lemma CountOperationsAre(order: seq<string>)
    requires forall n :: n in order <==> n in CountNames
    requires NoRepeats(order)
    ensures CountOperations(order) == [CountUnique]
  {
    var r := RegisteredAnalysis(order);
    assert CountOperations(order) == r;
    RegisteredAnalysisDistinct(order);
    forall op ensures op in r <==> op == CountUnique {
      RegisteredAnalysisMembers(order, op);
      CountNameOp(op);
      assert NameOf(op) in order <==> NameOf(op) in CountNames;
    }
    DistinctSingleton(r, CountUnique);
  }

  /** The only class registered as "count_unique". */
  lemma CountNameOp(op: Op)
    ensures CategoryOf(op) == AnalysisOps && NameOf(op) in CountNames <==> op == CountUnique
  {
    DecodeName(op);
    if NameOf(op) in CountNames {
      assert op == Decode("count_unique");
    }
  }

  /** A repetition-free sequence whose only member is `x` is `[x]`. */
  lemma DistinctSingleton<T>(r: seq<T>, x: T)
    requires NoRepeats(r)
    requires forall y :: y in r <==> y == x
    ensures r == [x]
  {
    assert x in r;
    assert r[0] in r && r[|r| - 1] in r;
  }

  /** The classes registered under the metric names: every one but "std_dev" names one of five. */
  lemma MetricNameOp(op: Op)
    requires NameOf(op) in MetricNames
    ensures op in {Average, Max, Min, Median, Sum}
  {
    var n := NameOf(op);
    DecodeName(op);
    if n == "average" {
      assert op == Decode("average");
    } else if n == "max" {
      assert op == Decode("max");
    } else if n == "min" {
      assert op == Decode("min");
    } else if n == "median" {
      assert op == Decode("median");
    } else if n == "sum" {
      assert op == Decode("sum");
    } else {
      assert false;
    }
  }

  /**
   * Whatever the iteration order, `get_metric_aggregation_operations`
   * gives the five registered classes average, max, min, median and sum,
   * each once; "std_dev" finds nothing, so StdDev is never among them.
   */
  lemma MetricAggregationOperationsAre(order: seq<string>, op: Op)
    requires forall n :: n in order <==> n in MetricNames
    requires NoRepeats(order)
    ensures op in MetricAggregationOperations(order) <==> op in {Average, Max, Min, Median, Sum}
    ensures NoRepeats(MetricAggregationOperations(order))
  {
    RegisteredAnalysisMembers(order, op);
    RegisteredAnalysisDistinct(order);
    if NameOf(op) in MetricNames {
      MetricNameOp(op);
    }
  }

  // ---------------------------------------------------------------------------
  // The derived attribute
  // ---------------------------------------------------------------------------

  /**
   * `agg_op.output_args[0].arg_types`: read from the descriptor for the
   * classes this model describes, and from `others` for the rest (Average,
   * Max, Median and Sum, whose definitions are not part of this model).
   * Every descriptor has one output group (`DescriptorShape`).
   */
  function OutputTypes(op: Op, others: Op -> seq<ArgType>): seq<ArgType>
  {
    match DescriptorOf(op)
    case Some(d) => if d.outputs != [] then d.outputs[0].types else []
    case None => others(op)
  }

  /** `x[0]` on a JSON value. */
  function FirstItem(j: Json): (r: Result<Json>)
  {
    match j
    case JList(l) => if l == [] then Err(IndexError) else Ok(l[0])
    case JStr(s) => if s == "" then Err(IndexError) else Ok(JStr([s[0]]))
    case JObj(_) => Err(KeyError("0"))
    case _ => Err(TypeError("object is not subscriptable"))
  }

  /** `f"{agg_op.name}_{related_ent.name}_{agg_attr.name}"`. */
  function DerivedName(op: Op, related: Json, agg: Json): string
  {
    NameOf(op) + "_" + PyStr(related) + "_" + PyStr(agg)
  }

  /** The eight-step plan of a derived attribute: `op` over the related attribute, grouped by the target's. */
  function AggregationPlan(target: Json, related: Json, groupby: Json, agg: Json, op: Op): Json
  {
    JObj([
      ("|1|", JStr("(retrieve_entity " + PyStr(target) + ")")),
      ("|2|", JStr("(retrieve_entity " + PyStr(related) + ")")),
      ("|3|", JStr("(retrieve_attribute |1| " + PyStr(groupby) + ")")),
      ("|4|", JStr("(retrieve_attribute |2| " + PyStr(agg) + ")")),
      ("|5|", JStr("(groupby |3|)")),
      ("|6|", JStr("(" + NameOf(op) + " |4| |5|)")),
      ("|7|", JStr("(collect |3| |6|)")),
      ("|8|", JStr("(return |7|)"))])
  }

  /**
   * `create_aggregation_attribute` as written: the isa is copied, but the
   * base isa is stored in a new field `baseisa`, so `base_isa` keeps the
   * None of a new attribute.
   */
  function CreateAggregationAttributeAsWritten(agg: AttributeState, groupby: AttributeState, op: Op, target: Json,
    related: Json, outputs: seq<ArgType>): Result<AttributeState>
  {
    var nick :- FirstItem(agg.nicename);
    var caption := NameOf(op) + " " + PyStr(nick);
    Ok(NewAttribute(JNull).(accessPlan := AggregationPlan(target, related, groupby.name, agg.name, op),
      name := JStr(DerivedName(op, related, agg.name)), nicename := JList([JStr(caption), JStr(caption)]),
      isa := agg.isa, types := Some(outputs)))
  }

  /** The attribute `create_aggregation_attribute` builds once it has the first item `nick` of the nicename. */
  function DerivedAttribute(agg: AttributeState, groupby: AttributeState, op: Op, nick: Json, target: Json, related: Json,
    outputs: seq<ArgType>): AttributeState
  {
    var caption := NameOf(op) + " " + PyStr(nick);
    NewAttribute(JNull).(accessPlan := AggregationPlan(target, related, groupby.name, agg.name, op),
      name := JStr(DerivedName(op, related, agg.name)), nicename := JList([JStr(caption), JStr(caption)]),
      isa := agg.isa, baseIsa := agg.baseIsa, types := Some(outputs))
  }

  /** `create_aggregation_attribute` as its comment intends: both isas inherited. */
  function CreateAggregationAttribute(agg: AttributeState, groupby: AttributeState, op: Op, target: Json,
    related: Json, outputs: seq<ArgType>): Result<AttributeState>
  {
    var nick :- FirstItem(agg.nicename);
    Ok(DerivedAttribute(agg, groupby, op, nick, target, related, outputs))
  }

  /**
   * The derived attribute: created exactly when the aggregated attribute's
   * nicename has a first item; named as `build_metric_name` names it, so
   * blueprints find it; typed with the operation's outputs; inheriting both
   * isas; with no parent entity and no other field set.
   */
  lemma CreateAggregationAttributeMeaning(agg: AttributeState, groupby: AttributeState, op: Op, target: Json,
    related: Json, outputs: seq<ArgType>)
    ensures var r := CreateAggregationAttribute(agg, groupby, op, target, related, outputs);
      && (r.Ok? <==> FirstItem(agg.nicename).Ok?)
      && (r.Err? ==> r.error == FirstItem(agg.nicename).error)
      && (r.Ok? ==>
        && r.value.name == JStr(BuildMetricName(NameOf(op), PyStr(related), PyStr(agg.name)))
        && r.value.types == Some(outputs)
        && r.value.isa == agg.isa && r.value.baseIsa == agg.baseIsa
        && r.value.parentEntity == JNull && r.value.source == NewAttribute(JNull).source
        && r.value.nicename.JList? && |r.value.nicename.items| == 2
        && r.value.nicename.items[0] == r.value.nicename.items[1])
  {
    assert NameOf(op) != "" by { DecodeName(op); }
  }

  /** As written, a derived attribute has no base isa, whatever the aggregated attribute's. */
  lemma AsWrittenDropsBaseIsa(agg: AttributeState, groupby: AttributeState, op: Op, target: Json, related: Json,
    outputs: seq<ArgType>)
    requires CreateAggregationAttributeAsWritten(agg, groupby, op, target, related, outputs).Ok?
    ensures CreateAggregationAttributeAsWritten(agg, groupby, op, target, related, outputs).value.baseIsa == JNull
    ensures CreateAggregationAttributeAsWritten(agg, groupby, op, target, related, outputs).value ==
      CreateAggregationAttribute(agg, groupby, op, target, related, outputs).value.(baseIsa := JNull)
  {
  }

  /** A float attribute averaged: as written the derived attribute's base isa is None instead of "float". */
  lemma AsWrittenFloatExample()
    ensures var agg := NewAttribute(JStr("e")).(name := JStr("x"), nicename := JList([JStr("X")]),
        isa := JStr("float"), baseIsa := JStr("float"));
      && CreateAggregationAttributeAsWritten(agg, agg, Average, JStr("t"), JStr("e"), []).value.baseIsa == JNull
      && CreateAggregationAttribute(agg, agg, Average, JStr("t"), JStr("e"), []).value.baseIsa == JStr("float")
  {
  }

  // ---------------------------------------------------------------------------
  // Access plans
  // ---------------------------------------------------------------------------

  /**
   * The name the access plans join on: the name of the first attribute
   * (in dictionary order) whose types include Identifier, or "id" when
   * there is none. The selection tests every attribute, so any attribute
   * without types raises.
   */
  function IdentifierName(attrs: Dict<AttributeState>): Result<Json>
  {
    if attrs == [] then Ok(JStr("id"))
    else if attrs[0].1.types.None? then Err(TypeError("argument of type 'NoneType' is not iterable"))
    else
      var rest :- IdentifierName(attrs[1..]);
      Ok(if Identifier in attrs[0].1.types.value then attrs[0].1.name else rest)
  }

  /** The identifier is the first of the attributes `get_attributes_with_type(Identifier)` selects, or "id". */
  lemma {:induction false} IdentifierNameSelects(attrs: Dict<AttributeState>)
    ensures var ids := AttributesWithType(attrs, Identifier);
      && (IdentifierName(attrs).Ok? <==> ids.Ok?)
      && (ids.Err? ==> IdentifierName(attrs) == Err(ids.error))
      && (ids.Ok? ==> IdentifierName(attrs).value == if ids.value == [] then JStr("id") else ids.value[0].name)
  {
    if attrs != [] && attrs[0].1.types.Some? {
      IdentifierNameSelects(attrs[1..]);
      var ids := AttributesWithType(attrs, Identifier);
      var rest := AttributesWithType(attrs[1..], Identifier);
      if rest.Ok? {
        var h := if Identifier in attrs[0].1.types.value then [attrs[0].1] else [];
        assert ids.value == h + rest.value;
      }
    }
  }

  /**
   * The access plan of attribute `attr` of entity `entity`: the identifier
   * collects itself alone, any other attribute is collected beside the
   * identifier `id`.
   */
  function AccessPlan(entity: Json, attr: Json, id: Json, isId: bool): Json
  {
    if isId then
      JObj([("|1|", JStr("(retrieve_entity " + PyStr(entity) + ")")),
        ("|2|", JStr("(retrieve_attribute |1| " + PyStr(attr) + ")")),
        ("|3|", JStr("(collect |2|)")),
        ("|4|", JStr("(return |3|)"))])
    else
      JObj([("|1|", JStr("(retrieve_entity " + PyStr(entity) + ")")),
        ("|2|", JStr("(retrieve_attribute |1| " + PyStr(attr) + ")")),
        ("|3|", JStr("(retrieve_attribute |1| " + PyStr(id) + ")")),
        ("|4|", JStr("(collect |2| |3|)")),
        ("|5|", JStr("(return |4|)"))])
  }

  /** The attribute stored under `key`, given its access plan. */
  function Planned(entity: Json, key: string, a: AttributeState, id: Json): AttributeState
  {
    a.(accessPlan := AccessPlan(entity, a.name, id, JStr(key) == id))
  }

  /** The first `n` attributes given their access plans, the rest as they were. */
  function PlannedUpTo(entity: Json, attrs: Dict<AttributeState>, id: Json, n: nat): (r: Dict<AttributeState>)
    requires n <= |attrs|
  {
    seq(|attrs|, k requires 0 <= k < |attrs| =>
      if k < n then (attrs[k].0, Planned(entity, attrs[k].0, attrs[k].1, id)) else attrs[k])
  }

  /** The attribute loop of `generate_access_plans` for one entity. */
  function WithAccessPlans(e: EntityState): Result<EntityState>
  {
    if e.attributes == [] then Ok(e)
    else
      var id :- IdentifierName(e.attributes);
      Ok(e.(attributes := PlannedUpTo(e.name, e.attributes, id, |e.attributes|)))
  }

  /** Two dictionaries with the same keys in the same order, whose attributes differ at most in their access plans. */
  predicate SameButPlans(a: Dict<AttributeState>, b: Dict<AttributeState>)
  {
    |a| == |b| &&
    forall k :: 0 <= k < |a| ==> a[k].0 == b[k].0 && a[k].1.(accessPlan := JNull) == b[k].1.(accessPlan := JNull)
  }

  /** The first attributes agree on name and types, and the rest differ at most in access plans. */
  lemma SameButPlansSplit(a: Dict<AttributeState>, b: Dict<AttributeState>)
    requires SameButPlans(a, b) && a != []
    ensures a[0].1.types == b[0].1.types && a[0].1.name == b[0].1.name
    ensures SameButPlans(a[1..], b[1..])
  {
    assert a[0].1.(accessPlan := JNull) == b[0].1.(accessPlan := JNull);
    forall k | 0 <= k < |a[1..]|
      ensures a[1..][k].0 == b[1..][k].0 && a[1..][k].1.(accessPlan := JNull) == b[1..][k].1.(accessPlan := JNull)
    {
      assert a[1..][k] == a[k + 1] && b[1..][k] == b[k + 1];
    }
  }

  /** The identifier name is the same whatever the access plans. */
  lemma {:induction false} IdentifierIgnoresPlans(a: Dict<AttributeState>, b: Dict<AttributeState>)
    requires SameButPlans(a, b)
    ensures IdentifierName(a) == IdentifierName(b)
  {
    if a != [] {
      SameButPlansSplit(a, b);
      IdentifierIgnoresPlans(a[1..], b[1..]);
    }
  }

  /** Giving access plans changes nothing but access plans. */
  lemma PlannedSameButPlans(entity: Json, attrs: Dict<AttributeState>, id: Json, n: nat)
    requires n <= |attrs|
    ensures SameButPlans(PlannedUpTo(entity, attrs, id, n), attrs)
  {
  }

  /** Exactly the entities whose attributes all have types can be planned, and planning touches nothing but access plans. */
  lemma IdentifierNameOk(attrs: Dict<AttributeState>)
    ensures IdentifierName(attrs).Ok? <==> forall k :: 0 <= k < |attrs| ==> attrs[k].1.types.Some?
    ensures IdentifierName(attrs).Ok? && (forall k :: 0 <= k < |attrs| ==> Identifier !in attrs[k].1.types.value) ==>
      IdentifierName(attrs).value == JStr("id")
  {
    IdentifierNameSelects(attrs);
    if AttributesWithType(attrs, Identifier).Ok? {
      AttributesWithTypeOrder(attrs, Identifier);
    }
  }

  /** The identifier is the first attribute typed Identifier. */
  lemma {:induction false} IdentifierNameFirst(attrs: Dict<AttributeState>, k: nat)
    requires forall j :: 0 <= j < |attrs| ==> attrs[j].1.types.Some?
    requires k < |attrs| && Identifier in attrs[k].1.types.value
    requires forall j :: 0 <= j < k ==> Identifier !in attrs[j].1.types.value
    ensures IdentifierName(attrs) == Ok(attrs[k].1.name)
  {
    IdentifierNameOk(attrs[1..]);
    if k > 0 {
      assert forall j :: 0 <= j < |attrs[1..]| ==> attrs[1..][j] == attrs[j + 1];
      IdentifierNameFirst(attrs[1..], k - 1);
    }
  }

  /** The attribute loop of `generate_access_plans` over one entity; the identifier is looked up anew for every attribute, as the source does. */
  method PlanAttributes(e: EntityState) returns (r: Result<EntityState>)
    ensures r == WithAccessPlans(e)
  {
    var attrs := e.attributes;
    var j := 0;
    while j < |attrs|
      invariant |attrs| == |e.attributes| && j <= |attrs|
      invariant j == 0 ==> attrs == e.attributes
      invariant j > 0 ==> (IdentifierName(e.attributes).Ok? &&
        attrs == PlannedUpTo(e.name, e.attributes, IdentifierName(e.attributes).value, j))
    {
      if j > 0 {
        PlannedSameButPlans(e.name, e.attributes, IdentifierName(e.attributes).value, j);
      }
      IdentifierIgnoresPlans(attrs, e.attributes);
      var id := IdentifierName(attrs);
      if id.Err? {
        return Err(id.error);
      }
      var (key, a) := attrs[j];
      attrs := attrs[j := (key, a.(accessPlan := AccessPlan(e.name, a.name, id.value, JStr(key) == id.value)))];
      assert attrs == PlannedUpTo(e.name, e.attributes, id.value, j + 1);
      j := j + 1;
    }
    return Ok(e.(attributes := attrs));
  }

  /** `generate_access_plans` from entity `i` on: each entity is planned in turn until one raises. */
  function AccessPlansFrom(es: seq<EntityState>, i: nat): (seq<EntityState>, Option<Error>)
    decreases |es| - i
  {
    if i >= |es| then (es, None)
    else
      match WithAccessPlans(es[i])
      case Err(x) => (es, Some(x))
      case Ok(e) => AccessPlansFrom(es[i := e], i + 1)
  }

  /** Planning an entity keeps it but for the access plans of its attributes, and fails exactly on an attribute without types. */
  lemma WithAccessPlansKeeps(e: EntityState)
    ensures WithAccessPlans(e).Ok? <==> forall k :: 0 <= k < |e.attributes| ==> e.attributes[k].1.types.Some?
    ensures WithAccessPlans(e).Err? ==> (IdentifierName(e.attributes).Err? &&
      WithAccessPlans(e).error == IdentifierName(e.attributes).error)
    ensures WithAccessPlans(e).Ok? ==> var p := WithAccessPlans(e).value;
      p == e.(attributes := p.attributes) && SameButPlans(p.attributes, e.attributes)
  {
    IdentifierNameOk(e.attributes);
    if e.attributes != [] && IdentifierName(e.attributes).Ok? {
      PlannedSameButPlans(e.name, e.attributes, IdentifierName(e.attributes).value, |e.attributes|);
    }
  }

  /** Planning an entity a second time gives it the same plans. */
  lemma WithAccessPlansIdempotent(e: EntityState)
    requires WithAccessPlans(e).Ok?
    ensures WithAccessPlans(WithAccessPlans(e).value) == WithAccessPlans(e)
  {
    var p := WithAccessPlans(e).value;
    if e.attributes != [] {
      var id := IdentifierName(e.attributes).value;
      var n := |e.attributes|;
      PlannedSameButPlans(e.name, e.attributes, id, n);
      IdentifierIgnoresPlans(p.attributes, e.attributes);
      assert PlannedUpTo(e.name, p.attributes, id, n) == p.attributes;
    }
  }

  /**
   * `generate_access_plans` keeps every entity but for access plans; it
   * raises exactly when some entity has an attribute without types, and
   * otherwise gives every entity its plans.
   */
  lemma {:induction false} AccessPlansFromMeaning(es: seq<EntityState>, i: nat)
    ensures var r := AccessPlansFrom(es, i);
      && |r.0| == |es|
      && (forall k :: 0 <= k < i && k < |es| ==> r.0[k] == es[k])
      && (forall k :: 0 <= k < |es| ==> (r.0[k] == es[k].(attributes := r.0[k].attributes) &&
        SameButPlans(r.0[k].attributes, es[k].attributes)))
      && (r.1.None? <==> forall k :: i <= k < |es| ==> WithAccessPlans(es[k]).Ok?)
      && (r.1.None? ==> forall k :: i <= k < |es| ==> r.0[k] == WithAccessPlans(es[k]).value)
    decreases |es| - i
  {
    if i < |es| {
      WithAccessPlansKeeps(es[i]);
      if WithAccessPlans(es[i]).Ok? {
        var next := es[i := WithAccessPlans(es[i]).value];
        AccessPlansFromMeaning(next, i + 1);
        var r := AccessPlansFrom(next, i + 1);
        forall k | 0 <= k < |es|
          ensures r.0[k] == es[k].(attributes := r.0[k].attributes) && SameButPlans(r.0[k].attributes, es[k].attributes)
        {
          if k == i {
            SameButPlansTrans(r.0[k].attributes, next[k].attributes, es[k].attributes);
          }
        }
      }
    }
  }

  lemma SameButPlansTrans(a: Dict<AttributeState>, b: Dict<AttributeState>, c: Dict<AttributeState>)
    requires SameButPlans(a, b) && SameButPlans(b, c)
    ensures SameButPlans(a, c)
  {
  }

  /** Entities that are already planned stay as they are. */
  lemma {:induction false} AccessPlansFromFixed(es: seq<EntityState>, i: nat)
    requires forall k :: i <= k < |es| ==> WithAccessPlans(es[k]) == Ok(es[k])
    ensures AccessPlansFrom(es, i) == (es, None)
    decreases |es| - i
  {
    if i < |es| {
      assert es[i := es[i]] == es;
      AccessPlansFromFixed(es, i + 1);
    }
  }

  /** Generating the access plans again, after it succeeded, changes nothing. */
  lemma AccessPlansIdempotent(es: seq<EntityState>)
    requires AccessPlansFrom(es, 0).1.None?
    ensures AccessPlansFrom(AccessPlansFrom(es, 0).0, 0) == AccessPlansFrom(es, 0)
  {
    var r := AccessPlansFrom(es, 0).0;
    AccessPlansFromMeaning(es, 0);
    forall k | 0 <= k < |r| ensures WithAccessPlans(r[k]) == Ok(r[k]) {
      WithAccessPlansIdempotent(es[k]);
    }
    AccessPlansFromFixed(r, 0);
  }

  // ---------------------------------------------------------------------------
  // Derived attributes
  // ---------------------------------------------------------------------------

  /** `target_entity.attributes[new.name] = new` and `target_entity.attribute_name.append(new.name)`. */
  function AddDerived(e: EntityState, key: string, a: AttributeState): EntityState
  {
    e.(attributes := Put(e.attributes, key, a), attributeName := e.attributeName + [key])
  }

  /**
   * `e1` is `e0` with attributes added under `names`, in this order: the
   * names are appended to `attribute_name`, each is a key whose attribute
   * carries that name, every other key keeps its attribute, and nothing
   * else changes.
   */
  ghost predicate Adds(e0: EntityState, e1: EntityState, names: seq<string>)
  {
    && e1 == e0.(attributes := e1.attributes, attributeName := e1.attributeName)
    && e1.attributeName == e0.attributeName + names
    && (forall k :: HasKey(e1.attributes, k) <==> HasKey(e0.attributes, k) || k in names)
    && (forall n :: n in names ==> Get(e1.attributes, n).Some? && Get(e1.attributes, n).value.name == JStr(n))
    && (forall k :: k !in names ==> Get(e1.attributes, k) == Get(e0.attributes, k))
  }

  /** `e1` is `e0` with some attributes added: those its `attribute_name` gained. */
  ghost predicate Extends(e0: EntityState, e1: EntityState)
  {
    |e0.attributeName| <= |e1.attributeName| && Adds(e0, e1, e1.attributeName[|e0.attributeName|..])
  }

  /** Adding an attribute stored under its own name. */
  lemma AddDerivedAdds(e: EntityState, key: string, a: AttributeState)
    requires a.name == JStr(key)
    ensures Adds(e, AddDerived(e, key, a), [key])
  {
    var d := AddDerived(e, key, a).attributes;
    forall k ensures Get(d, k) == (if k == key then Some(a) else Get(e.attributes, k))
      && (HasKey(d, k) <==> HasKey(e.attributes, k) || k == key)
    {
      PutGet(e.attributes, key, a, k);
      assert Get(d, k).Some? <==> HasKey(d, k);
      assert Get(e.attributes, k).Some? <==> HasKey(e.attributes, k);
    }
  }

  /** Adding nothing. */
  lemma AddsNothing(e: EntityState)
    ensures Adds(e, e, [])
  {
  }

  /** Additions compose. */
  lemma AddsTrans(e0: EntityState, e1: EntityState, e2: EntityState, n1: seq<string>, n2: seq<string>)
    requires Adds(e0, e1, n1) && Adds(e1, e2, n2)
    ensures Adds(e0, e2, n1 + n2)
  {
    forall n | n in n1 + n2 ensures Get(e2.attributes, n).Some? && Get(e2.attributes, n).value.name == JStr(n) {
      if n !in n2 {
        assert Get(e2.attributes, n) == Get(e1.attributes, n);
      }
    }
  }

  /** Every addition is an extension. */
  lemma AddsExtends(e0: EntityState, e1: EntityState, names: seq<string>)
    requires Adds(e0, e1, names)
    ensures Extends(e0, e1)
  {
    assert e1.attributeName[|e0.attributeName|..] == names;
  }

  /** Extensions compose. */
  lemma ExtendsTrans(e0: EntityState, e1: EntityState, e2: EntityState)
    requires Extends(e0, e1) && Extends(e1, e2)
    ensures Extends(e0, e2)
  {
    var n1, n2 := e1.attributeName[|e0.attributeName|..], e2.attributeName[|e1.attributeName|..];
    AddsTrans(e0, e1, e2, n1, n2);
    AddsExtends(e0, e2, n1 + n2);
  }

  /** The innermost loop: `agg` grouped by `gb` with the operations `ops[j..]`. */
  function OpsFrom(e: EntityState, agg: AttributeState, gb: AttributeState, ops: seq<Op>, j: nat, related: Json,
    others: Op -> seq<ArgType>): (EntityState, Option<Error>)
    decreases |ops| - j
  {
    if j >= |ops| then (e, None)
    else
      match CreateAggregationAttribute(agg, gb, ops[j], e.name, related, OutputTypes(ops[j], others))
      case Err(x) => (e, Some(x))
      case Ok(d) => OpsFrom(AddDerived(e, DerivedName(ops[j], related, agg.name), d), agg, gb, ops, j + 1, related, others)
  }

  /** The middle loop: `agg` grouped by each of `gbs[g..]`. */
  function GroupbysFrom(e: EntityState, agg: AttributeState, gbs: seq<AttributeState>, ops: seq<Op>, g: nat, related: Json,
    others: Op -> seq<ArgType>): (EntityState, Option<Error>)
    decreases |gbs| - g
  {
    if g >= |gbs| then (e, None)
    else
      var (e1, x) := OpsFrom(e, agg, gbs[g], ops, 0, related, others);
      if x.Some? then (e1, x) else GroupbysFrom(e1, agg, gbs, ops, g + 1, related, others)
  }

  /** The outer loop: each of `aggs[a..]`. */
  function AggsFrom(e: EntityState, aggs: seq<AttributeState>, gbs: seq<AttributeState>, ops: seq<Op>, a: nat, related: Json,
    others: Op -> seq<ArgType>): (EntityState, Option<Error>)
    decreases |aggs| - a
  {
    if a >= |aggs| then (e, None)
    else
      var (e1, x) := GroupbysFrom(e, aggs[a], gbs, ops, 0, related, others);
      if x.Some? then (e1, x) else AggsFrom(e1, aggs, gbs, ops, a + 1, related, others)
  }

  /** What one pass of the innermost loop body needs: the aggregated attribute, its nicename's first item, the group-by and the operation. */
  datatype Recipe = Recipe(agg: AttributeState, nick: Json, gb: AttributeState, op: Op)

  /** The key of the attribute a recipe derives. */
  function RecipeName(r: Recipe, related: Json): string
  {
    DerivedName(r.op, related, r.agg.name)
  }

  /** The keys of the attributes the recipes derive, in order. */
  function RecipeNames(rs: seq<Recipe>, related: Json): (ns: seq<string>)
    ensures |ns| == |rs|
  {
    if rs == [] then [] else [RecipeName(rs[0], related)] + RecipeNames(rs[1..], related)
  }

  /** One pass of the innermost loop body: create the attribute and add it under its name. */
  function Apply(e: EntityState, r: Recipe, target: Json, related: Json, others: Op -> seq<ArgType>): EntityState
  {
    AddDerived(e, RecipeName(r, related), DerivedAttribute(r.agg, r.gb, r.op, r.nick, target, related, OutputTypes(r.op, others)))
  }

  /** The recipes applied one after the other. */
  function ApplyAll(e: EntityState, rs: seq<Recipe>, target: Json, related: Json, others: Op -> seq<ArgType>): EntityState
    decreases |rs|
  {
    if rs == [] then e else ApplyAll(Apply(e, rs[0], target, related, others), rs[1..], target, related, others)
  }

  /** The recipes of the operations `ops[j..]` on `agg` grouped by `gb`. */
  function OpRecipes(agg: AttributeState, nick: Json, gb: AttributeState, ops: seq<Op>, j: nat): (rs: seq<Recipe>)
    ensures |rs| == if j <= |ops| then |ops| - j else 0
    decreases |ops| - j
  {
    if j >= |ops| then [] else [Recipe(agg, nick, gb, ops[j])] + OpRecipes(agg, nick, gb, ops, j + 1)
  }

  /** The recipes of `agg` grouped by each of `gbs[g..]`. */
  function GroupbyRecipes(agg: AttributeState, nick: Json, gbs: seq<AttributeState>, g: nat, ops: seq<Op>): seq<Recipe>
    decreases |gbs| - g
  {
    if g >= |gbs| then [] else OpRecipes(agg, nick, gbs[g], ops, 0) + GroupbyRecipes(agg, nick, gbs, g + 1, ops)
  }

  /** The recipes of each of `aggs[a..b]`, whose nicenames all have a first item. */
  function AggRecipes(aggs: seq<AttributeState>, a: nat, b: nat, gbs: seq<AttributeState>, ops: seq<Op>): seq<Recipe>
    requires b <= |aggs| && forall k :: a <= k < b ==> FirstItem(aggs[k].nicename).Ok?
    decreases b - a
  {
    if a >= b then []
    else GroupbyRecipes(aggs[a], FirstItem(aggs[a].nicename).value, gbs, 0, ops) + AggRecipes(aggs, a + 1, b, gbs, ops)
  }

  /** The first of `aggs[a..]` whose nicename has no first item, or `|aggs|`. */
  function FirstFailing(aggs: seq<AttributeState>, a: nat): (k: nat)
    requires a <= |aggs|
    ensures a <= k <= |aggs|
    ensures forall j :: a <= j < k ==> FirstItem(aggs[j].nicename).Ok?
    ensures k < |aggs| ==> FirstItem(aggs[k].nicename).Err?
    decreases |aggs| - a
  {
    if a == |aggs| || FirstItem(aggs[a].nicename).Err? then a else FirstFailing(aggs, a + 1)
  }

  /** Applying two lists of recipes is applying their concatenation; the entity keeps its name. */
  lemma {:induction false} ApplyAllAppend(e: EntityState, r1: seq<Recipe>, r2: seq<Recipe>, target: Json, related: Json,
    others: Op -> seq<ArgType>)
    ensures ApplyAll(e, r1 + r2, target, related, others) == ApplyAll(ApplyAll(e, r1, target, related, others), r2, target, related, others)
    ensures ApplyAll(e, r1, target, related, others).name == e.name
    decreases |r1|
  {
    if r1 != [] {
      assert (r1 + r2)[0] == r1[0] && (r1 + r2)[1..] == r1[1..] + r2;
      ApplyAllAppend(Apply(e, r1[0], target, related, others), r1[1..], r2, target, related, others);
    } else {
      assert r1 + r2 == r2;
    }
  }

  /** Applying recipes adds exactly their names, each holding an attribute of that name. */
  lemma {:induction false} ApplyAllAdds(e: EntityState, rs: seq<Recipe>, target: Json, related: Json, others: Op -> seq<ArgType>)
    ensures Adds(e, ApplyAll(e, rs, target, related, others), RecipeNames(rs, related))
    decreases |rs|
  {
    if rs == [] {
      AddsNothing(e);
    } else {
      var key := RecipeName(rs[0], related);
      var d := DerivedAttribute(rs[0].agg, rs[0].gb, rs[0].op, rs[0].nick, target, related, OutputTypes(rs[0].op, others));
      var e1 := Apply(e, rs[0], target, related, others);
      AddDerivedAdds(e, key, d);
      ApplyAllAdds(e1, rs[1..], target, related, others);
      AddsTrans(e, e1, ApplyAll(e, rs, target, related, others), [key], RecipeNames(rs[1..], related));
    }
  }

  /** The operations either all fail, on the nicename, before changing anything, or apply their recipes. */
  lemma {:induction false} OpsFromIs(e: EntityState, agg: AttributeState, gb: AttributeState, ops: seq<Op>, j: nat,
    related: Json, others: Op -> seq<ArgType>)
    requires j <= |ops|
    ensures var r := OpsFrom(e, agg, gb, ops, j, related, others);
      && (FirstItem(agg.nicename).Ok? ==>
        r == (ApplyAll(e, OpRecipes(agg, FirstItem(agg.nicename).value, gb, ops, j), e.name, related, others), None))
      && (FirstItem(agg.nicename).Err? ==>
        r == (e, if j < |ops| then Some(FirstItem(agg.nicename).error) else None))
    decreases |ops| - j
  {
    if j < |ops| && FirstItem(agg.nicename).Ok? {
      var nick := FirstItem(agg.nicename).value;
      var rc := Recipe(agg, nick, gb, ops[j]);
      var rest := OpRecipes(agg, nick, gb, ops, j + 1);
      OpsFromIs(Apply(e, rc, e.name, related, others), agg, gb, ops, j + 1, related, others);
      assert ([rc] + rest)[0] == rc && ([rc] + rest)[1..] == rest;
    }
  }

  /** The group-bys of one aggregated attribute either fail before changing anything or apply their recipes. */
  lemma {:induction false} GroupbysFromIs(e: EntityState, agg: AttributeState, gbs: seq<AttributeState>, ops: seq<Op>,
    g: nat, related: Json, others: Op -> seq<ArgType>)
    requires g <= |gbs|
    ensures var r := GroupbysFrom(e, agg, gbs, ops, g, related, others);
      && (FirstItem(agg.nicename).Ok? ==>
        r == (ApplyAll(e, GroupbyRecipes(agg, FirstItem(agg.nicename).value, gbs, g, ops), e.name, related, others), None))
      && (FirstItem(agg.nicename).Err? ==>
        r == (e, if g < |gbs| && |ops| > 0 then Some(FirstItem(agg.nicename).error) else None))
    decreases |gbs| - g
  {
    if g < |gbs| {
      OpsFromIs(e, agg, gbs[g], ops, 0, related, others);
      var e1 := OpsFrom(e, agg, gbs[g], ops, 0, related, others).0;
      GroupbysFromIs(e1, agg, gbs, ops, g + 1, related, others);
      if FirstItem(agg.nicename).Ok? {
        var nick := FirstItem(agg.nicename).value;
        ApplyAllAppend(e, OpRecipes(agg, nick, gbs[g], ops, 0), GroupbyRecipes(agg, nick, gbs, g + 1, ops), e.name, related, others);
      }
    }
  }

  /**
   * The aggregated attributes in turn, when there is a group-by and an
   * operation: the loops apply the recipes of every attribute before the
   * first whose nicename has no first item, and stop there with its error.
   */
  lemma {:induction false} AggsFromIs(e: EntityState, aggs: seq<AttributeState>, gbs: seq<AttributeState>, ops: seq<Op>,
    a: nat, related: Json, others: Op -> seq<ArgType>)
    requires a <= |aggs| && |gbs| > 0 && |ops| > 0
    ensures var r := AggsFrom(e, aggs, gbs, ops, a, related, others);
      var k := FirstFailing(aggs, a);
      && r.0 == ApplyAll(e, AggRecipes(aggs, a, k, gbs, ops), e.name, related, others)
      && r.1 == if k < |aggs| then Some(FirstItem(aggs[k].nicename).error) else None
    decreases |aggs| - a
  {
    if a < |aggs| {
      if FirstItem(aggs[a].nicename).Ok? {
        var r1 := GroupbyRecipes(aggs[a], FirstItem(aggs[a].nicename).value, gbs, 0, ops);
        var e1 := ApplyAll(e, r1, e.name, related, others);
        AggsFromStep(e, aggs, gbs, ops, a, related, others);
        AggRecipesStep(aggs, a, gbs, ops);
        AggsFromIs(e1, aggs, gbs, ops, a + 1, related, others);
        ApplyAllAppend(e, r1, AggRecipes(aggs, a + 1, FirstFailing(aggs, a), gbs, ops), e.name, related, others);
      } else {
        GroupbysFromIs(e, aggs[a], gbs, ops, 0, related, others);
      }
    }
  }

  /** An aggregated attribute with a first item applies its recipes and the loop goes on with the next. */
  lemma AggsFromStep(e: EntityState, aggs: seq<AttributeState>, gbs: seq<AttributeState>, ops: seq<Op>,
    a: nat, related: Json, others: Op -> seq<ArgType>)
    requires a < |aggs| && FirstItem(aggs[a].nicename).Ok?
    ensures AggsFrom(e, aggs, gbs, ops, a, related, others) ==
      AggsFrom(ApplyAll(e, GroupbyRecipes(aggs[a], FirstItem(aggs[a].nicename).value, gbs, 0, ops), e.name, related, others),
        aggs, gbs, ops, a + 1, related, others)
  {
    GroupbysFromIs(e, aggs[a], gbs, ops, 0, related, others);
  }

  /** The recipes from `a` on are those of `aggs[a]` followed by those from `a + 1` on. */
  lemma AggRecipesStep(aggs: seq<AttributeState>, a: nat, gbs: seq<AttributeState>, ops: seq<Op>)
    requires a < |aggs| && FirstItem(aggs[a].nicename).Ok?
    ensures FirstFailing(aggs, a) == FirstFailing(aggs, a + 1)
    ensures AggRecipes(aggs, a, FirstFailing(aggs, a), gbs, ops) ==
      GroupbyRecipes(aggs[a], FirstItem(aggs[a].nicename).value, gbs, 0, ops) + AggRecipes(aggs, a + 1, FirstFailing(aggs, a), gbs, ops)
  {
  }

  /** No group-by or no operation: nothing is derived and nothing raised. */
  lemma {:induction false} AggsFromNoCombination(e: EntityState, aggs: seq<AttributeState>, gbs: seq<AttributeState>,
    ops: seq<Op>, a: nat, related: Json, others: Op -> seq<ArgType>)
    requires |gbs| == 0 || |ops| == 0
    ensures AggsFrom(e, aggs, gbs, ops, a, related, others) == (e, None)
    decreases |aggs| - a
  {
    if a < |aggs| {
      GroupbysFromIs(e, aggs[a], gbs, ops, 0, related, others);
      if FirstItem(aggs[a].nicename).Ok? {
        GroupbyRecipesEmpty(aggs[a], FirstItem(aggs[a].nicename).value, gbs, 0, ops);
      }
      AggsFromNoCombination(e, aggs, gbs, ops, a + 1, related, others);
    }
  }

  /** Without group-bys or operations there is nothing to derive. */
  lemma {:induction false} GroupbyRecipesEmpty(agg: AttributeState, nick: Json, gbs: seq<AttributeState>, g: nat, ops: seq<Op>)
    requires |gbs| == 0 || |ops| == 0
    ensures GroupbyRecipes(agg, nick, gbs, g, ops) == []
    decreases |gbs| - g
  {
    if g < |gbs| {
      GroupbyRecipesEmpty(agg, nick, gbs, g + 1, ops);
    }
  }

  /** One recipe per group-by attribute and operation. */
  lemma {:induction false} GroupbyRecipesCount(agg: AttributeState, nick: Json, gbs: seq<AttributeState>, g: nat, ops: seq<Op>)
    requires g <= |gbs|
    ensures |GroupbyRecipes(agg, nick, gbs, g, ops)| == Times(|gbs| - g, |ops|)
    decreases |gbs| - g
  {
    if g < |gbs| {
      GroupbyRecipesCount(agg, nick, gbs, g + 1, ops);
    }
  }

  /** One recipe per aggregated attribute, group-by attribute and operation. */
  lemma {:induction false} AggRecipesCount(aggs: seq<AttributeState>, a: nat, b: nat, gbs: seq<AttributeState>, ops: seq<Op>)
    requires a <= b <= |aggs| && forall k :: a <= k < b ==> FirstItem(aggs[k].nicename).Ok?
    ensures |AggRecipes(aggs, a, b, gbs, ops)| == Times(b - a, Times(|gbs|, |ops|))
    decreases b - a
  {
    if a < b {
      GroupbyRecipesCount(aggs[a], FirstItem(aggs[a].nicename).value, gbs, 0, ops);
      AggRecipesCount(aggs, a + 1, b, gbs, ops);
    }
  }

  /** `n * m`, counted out: `m` added `n` times. */
  function Times(n: nat, m: nat): nat
  {
    if n == 0 then 0 else m + Times(n - 1, m)
  }

  lemma {:induction false} TimesIsProduct(n: nat, m: nat)
    ensures Times(n, m) == n * m
  {
    if n > 0 {
      TimesIsProduct(n - 1, m);
    }
  }

  /** A recipe list applied in full adds one attribute per recipe. */
  lemma ApplyAllCount(e: EntityState, rs: seq<Recipe>, target: Json, related: Json, others: Op -> seq<ArgType>)
    ensures |ApplyAll(e, rs, target, related, others).attributeName| == |e.attributeName| + |rs|
  {
    ApplyAllAdds(e, rs, target, related, others);
  }

  /** Every entity extends itself. */
  lemma ExtendsRefl(e: EntityState)
    ensures Extends(e, e)
  {
    AddsNothing(e);
    AddsExtends(e, e, []);
  }

  /** Whatever the loops over one related entity do, they only add attributes to the target. */
  lemma AggsFromExtends(e: EntityState, aggs: seq<AttributeState>, gbs: seq<AttributeState>, ops: seq<Op>,
    related: Json, others: Op -> seq<ArgType>)
    ensures Extends(e, AggsFrom(e, aggs, gbs, ops, 0, related, others).0)
  {
    if |gbs| > 0 && |ops| > 0 {
      AggsFromIs(e, aggs, gbs, ops, 0, related, others);
      var rs := AggRecipes(aggs, 0, FirstFailing(aggs, 0), gbs, ops);
      ApplyAllAdds(e, rs, e.name, related, others);
      AddsExtends(e, ApplyAll(e, rs, e.name, related, others), RecipeNames(rs, related));
    } else {
      AggsFromNoCombination(e, aggs, gbs, ops, 0, related, others);
      ExtendsRefl(e);
    }
  }

  // ---------------------------------------------------------------------------
  // Over the related entities
  // ---------------------------------------------------------------------------

  /** `[ent for ent in self.ring.entities if ent.name in names]`, as the positions of those entities from `k` on. */
  function RelatedIndices(es: seq<EntityState>, names: seq<Json>, k: nat): (r: seq<nat>)
    ensures forall i :: i in r <==> k <= i < |es| && es[i].name in names
    ensures forall j :: 0 <= j < |r| ==> k <= r[j] < |es|
    ensures forall p, q :: 0 <= p < q < |r| ==> r[p] < r[q]
    decreases |es| - k
  {
    if k >= |es| then []
    else
      var rest := RelatedIndices(es, names, k + 1);
      (if es[k].name in names then [k] else []) + rest
  }

  /**
   * The body of the loop over the related entities, for the target
   * `es[t]` and the related `es[i]`: the attributes of the related entity
   * that have `attrType`, the identifiers of the target, then the three
   * nested loops, which update the target in place.
   */
  function OverRelated(es: seq<EntityState>, t: nat, i: nat, ops: seq<Op>, attrType: ArgType,
    others: Op -> seq<ArgType>): (r: (seq<EntityState>, Option<Error>))
    requires t < |es| && i < |es|
    ensures |r.0| == |es|
  {
    match AttributesWithType(es[i].attributes, attrType)
    case Err(x) => (es, Some(x))
    case Ok(aggs) =>
      match AttributesWithType(es[t].attributes, Identifier)
      case Err(x) => (es, Some(x))
      case Ok(gbs) =>
        var (e1, x) := AggsFrom(es[t], aggs, gbs, ops, 0, es[i].name, others);
        (es[t := e1], x)
  }

  /** One related entity changes only the target, and only by adding attributes to it. */
  lemma OverRelatedMeaning(es: seq<EntityState>, t: nat, i: nat, ops: seq<Op>, attrType: ArgType, others: Op -> seq<ArgType>)
    requires t < |es| && i < |es|
    ensures var r := OverRelated(es, t, i, ops, attrType, others);
      && (forall k :: 0 <= k < |es| && k != t ==> r.0[k] == es[k])
      && Extends(es[t], r.0[t])
  {
    var aggs := AttributesWithType(es[i].attributes, attrType);
    var gbs := AttributesWithType(es[t].attributes, Identifier);
    if aggs.Ok? && gbs.Ok? {
      AggsFromExtends(es[t], aggs.value, gbs.value, ops, es[i].name, others);
    } else {
      ExtendsRefl(es[t]);
    }
  }

  /** When the loops over one related entity raise nothing, they add one attribute per combination. */
  lemma AggsFromCount(e: EntityState, aggs: seq<AttributeState>, gbs: seq<AttributeState>, ops: seq<Op>,
    related: Json, others: Op -> seq<ArgType>)
    requires AggsFrom(e, aggs, gbs, ops, 0, related, others).1.None?
    ensures |AggsFrom(e, aggs, gbs, ops, 0, related, others).0.attributeName|
      == |e.attributeName| + Times(|aggs|, Times(|gbs|, |ops|))
  {
    var r := AggsFrom(e, aggs, gbs, ops, 0, related, others);
    if |gbs| > 0 && |ops| > 0 {
      AggsFromIs(e, aggs, gbs, ops, 0, related, others);
      assert FirstFailing(aggs, 0) == |aggs|;
      var rs := AggRecipes(aggs, 0, |aggs|, gbs, ops);
      assert r.0 == ApplyAll(e, rs, e.name, related, others);
      AggRecipesCount(aggs, 0, |aggs|, gbs, ops);
      ApplyAllCount(e, rs, e.name, related, others);
    } else {
      AggsFromNoCombination(e, aggs, gbs, ops, 0, related, others);
      assert Times(|gbs|, |ops|) == 0 by {
        TimesIsProduct(|gbs|, |ops|);
      }
      TimesIsProduct(|aggs|, 0);
    }
  }

  /**
   * When nothing is raised, the target gains one attribute per attribute
   * of the related entity with `attrType`, identifier of the target and
   * operation.
   */
  lemma OverRelatedCount(es: seq<EntityState>, t: nat, i: nat, ops: seq<Op>, attrType: ArgType, others: Op -> seq<ArgType>)
    requires t < |es| && i < |es|
    requires OverRelated(es, t, i, ops, attrType, others).1.None?
    ensures var aggs := AttributesWithType(es[i].attributes, attrType);
      var gbs := AttributesWithType(es[t].attributes, Identifier);
      && aggs.Ok? && gbs.Ok?
      && |OverRelated(es, t, i, ops, attrType, others).0[t].attributeName|
        == |es[t].attributeName| + |aggs.value| * (|gbs.value| * |ops|)
  {
    var aggs := AttributesWithType(es[i].attributes, attrType).value;
    var gbs := AttributesWithType(es[t].attributes, Identifier).value;
    var r := AggsFrom(es[t], aggs, gbs, ops, 0, es[i].name, others);
    assert OverRelated(es, t, i, ops, attrType, others) == (es[t := r.0], r.1);
    AggsFromCount(es[t], aggs, gbs, ops, es[i].name, others);
    TimesIsProduct(|gbs|, |ops|);
    TimesIsProduct(|aggs|, |gbs| * |ops|);
  }

  /**
   * The counts over one related entity: with "count_unique" the one name
   * to look up, the target gains one attribute per identifier of the
   * related entity and identifier of its own.
   */
  lemma CountsOverRelatedCount(es: seq<EntityState>, t: nat, i: nat, order: seq<string>, others: Op -> seq<ArgType>)
    requires t < |es| && i < |es|
    requires (forall n :: n in order <==> n in CountNames) && NoRepeats(order)
    requires OverRelated(es, t, i, CountOperations(order), Identifier, others).1.None?
    ensures var counted := AttributesWithType(es[i].attributes, Identifier);
      var gbs := AttributesWithType(es[t].attributes, Identifier);
      && counted.Ok? && gbs.Ok?
      && |OverRelated(es, t, i, CountOperations(order), Identifier, others).0[t].attributeName|
        == |es[t].attributeName| + |counted.value| * |gbs.value|
  {
    var ops := CountOperations(order);
    CountOperationsAre(order);
    assert |ops| == 1;
    OverRelatedCount(es, t, i, ops, Identifier, others);
    var gbs := AttributesWithType(es[t].attributes, Identifier).value;
    assert |gbs| * |ops| == |gbs|;
  }

  /** The loop over the related entities `es[idx[m]]`, `es[idx[m + 1]]`, ..., until one raises. */
  function OverRelatedFrom(es: seq<EntityState>, t: nat, idx: seq<nat>, m: nat, ops: seq<Op>, attrType: ArgType,
    others: Op -> seq<ArgType>): (r: (seq<EntityState>, Option<Error>))
    requires t < |es| && forall k :: 0 <= k < |idx| ==> idx[k] < |es|
    ensures |r.0| == |es|
    decreases |idx| - m
  {
    if m >= |idx| then (es, None)
    else
      var (es1, x) := OverRelated(es, t, idx[m], ops, attrType, others);
      if x.Some? then (es1, x) else OverRelatedFrom(es1, t, idx, m + 1, ops, attrType, others)
  }

  /** The related entities together change only the target, and only by adding attributes to it. */
  lemma {:induction false} OverRelatedFromMeaning(es: seq<EntityState>, t: nat, idx: seq<nat>, m: nat, ops: seq<Op>,
    attrType: ArgType, others: Op -> seq<ArgType>)
    requires t < |es| && forall k :: 0 <= k < |idx| ==> idx[k] < |es|
    ensures var r := OverRelatedFrom(es, t, idx, m, ops, attrType, others);
      && (forall k :: 0 <= k < |es| && k != t ==> r.0[k] == es[k])
      && Extends(es[t], r.0[t])
    decreases |idx| - m
  {
    if m >= |idx| {
      ExtendsRefl(es[t]);
    } else {
      var (es1, x) := OverRelated(es, t, idx[m], ops, attrType, others);
      OverRelatedMeaning(es, t, idx[m], ops, attrType, others);
      if x.None? {
        OverRelatedFromMeaning(es1, t, idx, m + 1, ops, attrType, others);
        ExtendsTrans(es[t], es1[t], OverRelatedFrom(es1, t, idx, m + 1, ops, attrType, others).0[t]);
      }
    }
  }

  /**
   * `generate_metric_aggregations_over_related_entities` and
   * `generate_counts_over_related_entities` for the target `es[t]`: the
   * related entities are those the relationships name, taken in the
   * ring's order.
   */
  function AggregateOver(es: seq<EntityState>, rels: seq<RelState>, t: nat, ops: seq<Op>, attrType: ArgType,
    others: Op -> seq<ArgType>): (r: (seq<EntityState>, Option<Error>))
    requires t < |es|
    ensures |r.0| == |es|
  {
    OverRelatedFrom(es, t, RelatedIndices(es, RelatedNames(rels, es[t].name), 0), 0, ops, attrType, others)
  }

  lemma HeadIn<T>(s: seq<T>)
    ensures |s| > 0 ==> s[0] in s
  {
  }

  /** An entity that nothing relates to is left as it is. */
  lemma AggregateOverUnrelated(es: seq<EntityState>, rels: seq<RelState>, t: nat, ops: seq<Op>, attrType: ArgType,
    others: Op -> seq<ArgType>)
    requires t < |es|
    requires forall k :: 0 <= k < |rels| ==> RelatedName(rels[k], es[t].name).None?
    ensures AggregateOver(es, rels, t, ops, attrType, others) == (es, None)
  {
    var names := RelatedNames(rels, es[t].name);
    RelatedNamesMembers(rels, es[t].name);
    HeadIn(names);
    HeadIn(RelatedIndices(es, names, 0));
  }

  /** Every entity of `es1` extends the one at its position in `es0`. */
  ghost predicate ExtendsAll(es0: seq<EntityState>, es1: seq<EntityState>)
  {
    |es0| == |es1| && forall k :: 0 <= k < |es0| ==> Extends(es0[k], es1[k])
  }

  lemma ExtendsAllRefl(es: seq<EntityState>)
    ensures ExtendsAll(es, es)
  {
    forall k | 0 <= k < |es| ensures Extends(es[k], es[k]) {
      ExtendsRefl(es[k]);
    }
  }

  lemma ExtendsAllTrans(es0: seq<EntityState>, es1: seq<EntityState>, es2: seq<EntityState>)
    requires ExtendsAll(es0, es1) && ExtendsAll(es1, es2)
    ensures ExtendsAll(es0, es2)
  {
    forall k | 0 <= k < |es0| ensures Extends(es0[k], es2[k]) {
      ExtendsTrans(es0[k], es1[k], es2[k]);
    }
  }

  /** The aggregations over the related entities only add attributes, to the target alone. */
  lemma AggregateOverExtends(es: seq<EntityState>, rels: seq<RelState>, t: nat, ops: seq<Op>, attrType: ArgType,
    others: Op -> seq<ArgType>)
    requires t < |es|
    ensures ExtendsAll(es, AggregateOver(es, rels, t, ops, attrType, others).0)
  {
    var r := AggregateOver(es, rels, t, ops, attrType, others).0;
    OverRelatedFromMeaning(es, t, RelatedIndices(es, RelatedNames(rels, es[t].name), 0), 0, ops, attrType, others);
    forall k | 0 <= k < |es| ensures Extends(es[k], r[k]) {
      ExtendsRefl(es[k]);
    }
  }

  /** The metric aggregations and then the counts over the entities related to `es[t]`, until one raises. */
  function DeriveFor(es: seq<EntityState>, rels: seq<RelState>, t: nat, metricOps: seq<Op>, countOps: seq<Op>,
    others: Op -> seq<ArgType>): (r: (seq<EntityState>, Option<Error>))
    requires t < |es|
    ensures |r.0| == |es|
  {
    var (es1, x) := AggregateOver(es, rels, t, metricOps, Arithmetic, others);
    if x.Some? then (es1, x) else AggregateOver(es1, rels, t, countOps, Identifier, others)
  }

  lemma DeriveForExtends(es: seq<EntityState>, rels: seq<RelState>, t: nat, metricOps: seq<Op>, countOps: seq<Op>,
    others: Op -> seq<ArgType>)
    requires t < |es|
    ensures ExtendsAll(es, DeriveFor(es, rels, t, metricOps, countOps, others).0)
  {
    var es1 := AggregateOver(es, rels, t, metricOps, Arithmetic, others).0;
    AggregateOverExtends(es, rels, t, metricOps, Arithmetic, others);
    AggregateOverExtends(es1, rels, t, countOps, Identifier, others);
    ExtendsAllTrans(es, es1, AggregateOver(es1, rels, t, countOps, Identifier, others).0);
  }

  /**
   * `generate_derived_attributes` from entity `t` on: for each entity in
   * turn, the metric aggregations and then the counts over its related
   * entities, until one raises.
   */
  function DerivedFrom(es: seq<EntityState>, rels: seq<RelState>, t: nat, metricOps: seq<Op>, countOps: seq<Op>,
    others: Op -> seq<ArgType>): (r: (seq<EntityState>, Option<Error>))
    ensures |r.0| == |es|
    decreases |es| - t
  {
    if t >= |es| then (es, None)
    else
      var (es1, x) := DeriveFor(es, rels, t, metricOps, countOps, others);
      if x.Some? then (es1, x) else DerivedFrom(es1, rels, t + 1, metricOps, countOps, others)
  }

  /** Deriving attributes keeps every entity but for the attributes it adds to it. */
  lemma {:induction false} DerivedFromMeaning(es: seq<EntityState>, rels: seq<RelState>, t: nat, metricOps: seq<Op>,
    countOps: seq<Op>, others: Op -> seq<ArgType>)
    ensures ExtendsAll(es, DerivedFrom(es, rels, t, metricOps, countOps, others).0)
    decreases |es| - t
  {
    if t >= |es| {
      ExtendsAllRefl(es);
    } else {
      var (es1, x) := DeriveFor(es, rels, t, metricOps, countOps, others);
      DeriveForExtends(es, rels, t, metricOps, countOps, others);
      if x.None? {
        DerivedFromMeaning(es1, rels, t + 1, metricOps, countOps, others);
        ExtendsAllTrans(es, es1, DerivedFrom(es1, rels, t + 1, metricOps, countOps, others).0);
      }
    }
  }

  /** Without relationships, nothing is derived and nothing raised. */
  lemma {:induction false} DerivedFromNoRelationships(es: seq<EntityState>, t: nat, metricOps: seq<Op>, countOps: seq<Op>,
    others: Op -> seq<ArgType>)
    ensures DerivedFrom(es, [], t, metricOps, countOps, others) == (es, None)
    decreases |es| - t
  {
    if t < |es| {
      AggregateOverUnrelated(es, [], t, metricOps, Arithmetic, others);
      AggregateOverUnrelated(es, [], t, countOps, Identifier, others);
      DerivedFromNoRelationships(es, t + 1, metricOps, countOps, others);
    }
  }

  // ---------------------------------------------------------------------------
  // The loops
  // ---------------------------------------------------------------------------

  /** The innermost loop, over the operations, on the target `e`. */
  method AddOperations(e: EntityState, agg: AttributeState, gb: AttributeState, ops: seq<Op>, related: Json,
    others: Op -> seq<ArgType>) returns (e1: EntityState, raised: Option<Error>)
    ensures (e1, raised) == OpsFrom(e, agg, gb, ops, 0, related, others)
  {
    e1 := e;
    var j := 0;
    while j < |ops|
      invariant j <= |ops|
      invariant OpsFrom(e1, agg, gb, ops, j, related, others) == OpsFrom(e, agg, gb, ops, 0, related, others)
    {
      var d := CreateAggregationAttribute(agg, gb, ops[j], e1.name, related, OutputTypes(ops[j], others));
      if d.Err? {
        return e1, Some(d.error);
      }
      e1 := AddDerived(e1, DerivedName(ops[j], related, agg.name), d.value);
      j := j + 1;
    }
    raised := None;
  }

  /** The middle loop, over the group-by attributes. */
  method AddGroupbys(e: EntityState, agg: AttributeState, gbs: seq<AttributeState>, ops: seq<Op>, related: Json,
    others: Op -> seq<ArgType>) returns (e1: EntityState, raised: Option<Error>)
    ensures (e1, raised) == GroupbysFrom(e, agg, gbs, ops, 0, related, others)
  {
    e1 := e;
    var g := 0;
    while g < |gbs|
      invariant g <= |gbs|
      invariant GroupbysFrom(e1, agg, gbs, ops, g, related, others) == GroupbysFrom(e, agg, gbs, ops, 0, related, others)
    {
      var x;
      e1, x := AddOperations(e1, agg, gbs[g], ops, related, others);
      if x.Some? {
        return e1, x;
      }
      g := g + 1;
    }
    raised := None;
  }

  /** The outer loop, over the attributes to aggregate. */
  method AddAggregations(e: EntityState, aggs: seq<AttributeState>, gbs: seq<AttributeState>, ops: seq<Op>, related: Json,
    others: Op -> seq<ArgType>) returns (e1: EntityState, raised: Option<Error>)
    ensures (e1, raised) == AggsFrom(e, aggs, gbs, ops, 0, related, others)
  {
    e1 := e;
    var a := 0;
    while a < |aggs|
      invariant a <= |aggs|
      invariant AggsFrom(e1, aggs, gbs, ops, a, related, others) == AggsFrom(e, aggs, gbs, ops, 0, related, others)
    {
      var x;
      e1, x := AddGroupbys(e1, aggs[a], gbs, ops, related, others);
      if x.Some? {
        return e1, x;
      }
      a := a + 1;
    }
    raised := None;
  }

  /** The related names from relationship `k` on: those of relationship `k`, then the rest. */
  lemma RelatedNamesStep(rels: seq<RelState>, k: nat, name: Json)
    requires k < |rels|
    ensures RelatedNames(rels[k..], name)
      == (match RelatedName(rels[k], name) case Some(n) => [n] case None => []) + RelatedNames(rels[k + 1..], name)
  {
    assert rels[k..][1..] == rels[k + 1..];
  }

  /** The test of `generate_*_over_related_entities`, one-to-many first, picks the same name as `RelatedName`. */
  lemma RelatedNameBranches(rel: RelState, name: Json)
    ensures rel.fro == name && rel.relType == JStr("o2m") ==> RelatedName(rel, name) == Some(rel.to)
    ensures !(rel.fro == name && rel.relType == JStr("o2m")) && rel.to == name && rel.relType == JStr("m2o") ==>
      RelatedName(rel, name) == Some(rel.fro)
    ensures !(rel.fro == name && rel.relType == JStr("o2m")) && !(rel.to == name && rel.relType == JStr("m2o")) ==>
      RelatedName(rel, name) == None
  {
  }

  /** One pass of the loop of `RelatedEntityNames` keeps its invariant. */
  lemma RelatedNamesAdvance(rels: seq<RelState>, k: nat, name: Json, names: seq<Json>)
    requires k < |rels| && names + RelatedNames(rels[k..], name) == RelatedNames(rels, name)
    ensures var rel, rest := rels[k], RelatedNames(rels[k + 1..], name);
      && (rel.fro == name && rel.relType == JStr("o2m") ==> (names + [rel.to]) + rest == RelatedNames(rels, name))
      && (!(rel.fro == name && rel.relType == JStr("o2m")) && rel.to == name && rel.relType == JStr("m2o") ==>
        (names + [rel.fro]) + rest == RelatedNames(rels, name))
      && (!(rel.fro == name && rel.relType == JStr("o2m")) && !(rel.to == name && rel.relType == JStr("m2o")) ==>
        names + rest == RelatedNames(rels, name))
  {
    var rel, rest := rels[k], RelatedNames(rels[k + 1..], name);
    RelatedNamesStep(rels, k, name);
    RelatedNameBranches(rel, name);
    match RelatedName(rel, name)
    case Some(n) => SnocThen(names, n, rest);
    case None =>
  }

  lemma SnocThen<T>(a: seq<T>, x: T, b: seq<T>)
    ensures a + ([x] + b) == (a + [x]) + b
  {
  }

  /**
   * `RingAugmentor`: derives attributes and access plans for the entities
   * of a ring, updating them in place. `others` gives the output types of
   * the operations whose classes this model does not describe;
   * `countOrder` and `metricOrder` are the orders in which the sets of
   * operation names are iterated.
   */
  class RingAugmentor {
    const ring: Ring
    const others: Op -> seq<ArgType>
    const countOrder: seq<string>
    const metricOrder: seq<string>

    constructor(ring: Ring, others: Op -> seq<ArgType>, countOrder: seq<string>, metricOrder: seq<string>)
      ensures this.ring == ring && this.others == others
      ensures this.countOrder == countOrder && this.metricOrder == metricOrder
    {
      this.ring := ring;
      this.others := others;
      this.countOrder := countOrder;
      this.metricOrder := metricOrder;
    }

    /** `generate_access_plans`: every entity in turn, until one raises. */
    method GenerateAccessPlans() returns (raised: Option<Error>)
      modifies ring
      ensures (ring.entities, raised) == AccessPlansFrom(old(ring.entities), 0)
      ensures ring.relationships == old(ring.relationships) && ring.currentTargetEntity == old(ring.currentTargetEntity)
    {
      var i := 0;
      while i < |ring.entities|
        invariant i <= |ring.entities|
        invariant AccessPlansFrom(ring.entities, i) == AccessPlansFrom(old(ring.entities), 0)
        invariant ring.relationships == old(ring.relationships) && ring.currentTargetEntity == old(ring.currentTargetEntity)
      {
        var p := PlanAttributes(ring.entities[i]);
        if p.Err? {
          return Some(p.error);
        }
        ring.entities := ring.entities[i := p.value];
        i := i + 1;
      }
      raised := None;
    }

    /** The names the relationships relate to `name`: the `to` of its one-to-many ones, the `fro` of the many-to-one ones into it. */
    method RelatedEntityNames(name: Json) returns (names: seq<Json>)
      ensures names == RelatedNames(ring.relationships, name)
    {
      names := [];
      var rels := ring.relationships;
      var k := 0;
      while k < |rels|
        invariant k <= |rels|
        invariant names + RelatedNames(rels[k..], name) == RelatedNames(rels, name)
      {
        var rel := rels[k];
        RelatedNamesAdvance(rels, k, name, names);
        if rel.fro == name && rel.relType == JStr("o2m") {
          names := names + [rel.to];
        } else if rel.to == name && rel.relType == JStr("m2o") {
          names := names + [rel.fro];
        }
        k := k + 1;
      }
      assert rels[k..] == [];
    }

    /** The loop over the entities related to `ring.entities[t]`, aggregating the attributes with `attrType` by `ops`. */
    method AggregateOverRelated(t: nat, ops: seq<Op>, attrType: ArgType) returns (raised: Option<Error>)
      requires t < |ring.entities|
      modifies ring
      ensures (ring.entities, raised) == AggregateOver(old(ring.entities), ring.relationships, t, ops, attrType, others)
      ensures ring.relationships == old(ring.relationships) && ring.currentTargetEntity == old(ring.currentTargetEntity)
    {
      var names := RelatedEntityNames(ring.entities[t].name);
      var idx := RelatedIndices(ring.entities, names, 0);
      var m := 0;
      while m < |idx|
        invariant m <= |idx| && |ring.entities| == |old(ring.entities)|
        invariant OverRelatedFrom(ring.entities, t, idx, m, ops, attrType, others)
          == OverRelatedFrom(old(ring.entities), t, idx, 0, ops, attrType, others)
        invariant ring.relationships == old(ring.relationships) && ring.currentTargetEntity == old(ring.currentTargetEntity)
      {
        raised := AggregateOne(t, idx[m], ops, attrType);
        if raised.Some? {
          return;
        }
        m := m + 1;
      }
      raised := None;
    }

    /** The body of the loop over the related entities, for the related `ring.entities[i]`. */
    method AggregateOne(t: nat, i: nat, ops: seq<Op>, attrType: ArgType) returns (raised: Option<Error>)
      requires t < |ring.entities| && i < |ring.entities|
      modifies ring
      ensures (ring.entities, raised) == OverRelated(old(ring.entities), t, i, ops, attrType, others)
      ensures ring.relationships == old(ring.relationships) && ring.currentTargetEntity == old(ring.currentTargetEntity)
    {
      var related := ring.entities[i];
      var aggs := AttributesWithType(related.attributes, attrType);
      if aggs.Err? {
        return Some(aggs.error);
      }
      var gbs := AttributesWithType(ring.entities[t].attributes, Identifier);
      if gbs.Err? {
        return Some(gbs.error);
      }
      var e1;
      e1, raised := AddAggregations(ring.entities[t], aggs.value, gbs.value, ops, related.name, others);
      ring.entities := ring.entities[t := e1];
    }

    /** `generate_metric_aggregations_over_related_entities`. */
    method GenerateMetricAggregations(t: nat) returns (raised: Option<Error>)
      requires t < |ring.entities|
      modifies ring
      ensures (ring.entities, raised)
        == AggregateOver(old(ring.entities), ring.relationships, t, MetricAggregationOperations(metricOrder), Arithmetic, others)
      ensures ring.relationships == old(ring.relationships) && ring.currentTargetEntity == old(ring.currentTargetEntity)
    {
      raised := AggregateOverRelated(t, MetricAggregationOperations(metricOrder), Arithmetic);
    }

    /** `generate_counts_over_related_entities`. */
    method GenerateCounts(t: nat) returns (raised: Option<Error>)
      requires t < |ring.entities|
      modifies ring
      ensures (ring.entities, raised)
        == AggregateOver(old(ring.entities), ring.relationships, t, CountOperations(countOrder), Identifier, others)
      ensures ring.relationships == old(ring.relationships) && ring.currentTargetEntity == old(ring.currentTargetEntity)
    {
      raised := AggregateOverRelated(t, CountOperations(countOrder), Identifier);
    }

    /** `generate_derived_attributes`: the metric aggregations and then the counts for every entity in turn, until one raises. */
    method GenerateDerivedAttributes() returns (raised: Option<Error>)
      modifies ring
      ensures (ring.entities, raised) == DerivedFrom(old(ring.entities), ring.relationships, 0,
        MetricAggregationOperations(metricOrder), CountOperations(countOrder), others)
      ensures ring.relationships == old(ring.relationships) && ring.currentTargetEntity == old(ring.currentTargetEntity)
    {
      var t := 0;
      while t < |ring.entities|
        invariant t <= |ring.entities| && |ring.entities| == |old(ring.entities)|
        invariant DerivedFrom(ring.entities, ring.relationships, t, MetricAggregationOperations(metricOrder),
            CountOperations(countOrder), others)
          == DerivedFrom(old(ring.entities), ring.relationships, 0, MetricAggregationOperations(metricOrder),
            CountOperations(countOrder), others)
        invariant ring.relationships == old(ring.relationships) && ring.currentTargetEntity == old(ring.currentTargetEntity)
      {
        raised := GenerateMetricAggregations(t);
        if raised.Some? {
          return;
        }
        raised := GenerateCounts(t);
        if raised.Some? {
          return;
        }
        t := t + 1;
      }
      raised := None;
    }
  }
}
