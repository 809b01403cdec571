/**
 * What the three report blueprints (ranking, comparative benchmark, time
 * over time) share: the composition specs they hand to the plan composer,
 * the filter plans they build, and the lookups of the metric attribute in
 * the ring.
 */
module Blueprints {

  import opened Wrappers
  import opened Dicts
  import opened Chars
  import opened Text
  import opened Json
  import RingEntities
  import RingAttributes
  import Rings
  import BlueprintUtils

  /** A filter plan: the step references "|1|", "|2|", ... with the text of their steps. */
  type FilterPlan = Dict<string>

  /** The filters of one access plan (an absent filter is None) and the word that joins them. */
  datatype AccessFilters = AccessFilters(filters: seq<Option<FilterPlan>>, joiner: Option<string>)

  /** An access plan with its filters. */
  datatype AccessSpec = AccessSpec(accessPlan: Json, filters: AccessFilters)

  /** A slot filler: a JSON value, or a float such as a benchmark target. */
  datatype Filler = Plain(value: Json) | Float(f: real)

  /** A composition spec before its base plan is looked up. */
  datatype Draft = Draft(planName: string, accessPlans: Dict<AccessSpec>, slotFillers: Dict<Filler>)

  /** A composition spec: the plan's name, its base plan, its access plans by reference letter, and its slot fillers. */
  datatype CompositionSpec = CompositionSpec(planName: string, basePlan: Json, accessPlans: Dict<AccessSpec>, slotFillers: Dict<Filler>)

  /**
   * The constructor arguments every blueprint takes, with the base plan
   * templates it reads and the ring's entities. An absent preference
   * direction is "".
   */
  datatype Subject = Subject(
    entityName: string,
    idAttribute: string,
    idValue: string,
    reference: string,
    metricEntityName: string,
    metricAttributeName: string,
    metricAggregation: string,
    preferenceDirection: string,
    templates: Dict<Json>,
    entities: seq<RingEntities.EntityState>)

  /** The metric as the constructor resolves it: its name, the two access plans it reads, and its nicename. */
  datatype Metric = Metric(name: string, entityAccessPlan: Json, accessPlan: Json, nicename: Json)

  // ---------------------------------------------------------------------------
  // Filters
  // ---------------------------------------------------------------------------

  /** Whether a filter is set: None and an empty dictionary are not. */
  predicate Truthy(f: Option<FilterPlan>)
  {
    f.Some? && f.value != []
  }

  /**
   * The three-step filter plan that retrieves `entity`, then its
   * `attribute`, then keeps the rows whose value is exactly the quoted
   * `value`.
   */
  function ExactFilter(entity: string, attribute: string, value: string): (r: FilterPlan)
    ensures Keys(r) == ["|1|", "|2|", "|3|"]
    ensures StartsWith(r[1].1, "(retrieve_attribute |1| ") && StartsWith(r[2].1, "(exact |2| \"")
    ensures EndsWith(r[2].1, value + "\")")
  {
    var third := "(exact |2| \"" + value + "\")";
    assert third == "(exact |2| \"" + (value + "\")");
    [("|1|", "(retrieve_entity " + entity + ")"),
     ("|2|", "(retrieve_attribute |1| " + attribute + ")"),
     ("|3|", third)]
  }

  /** Two exact filters on the same attribute are equal only for the same value. */
  lemma ExactFilterInjective(entity: string, attribute: string, v1: string, v2: string)
    requires ExactFilter(entity, attribute, v1) == ExactFilter(entity, attribute, v2)
    ensures v1 == v2
  {
    var s1 := ExactFilter(entity, attribute, v1)[2].1;
    var s2 := ExactFilter(entity, attribute, v2)[2].1;
    assert s1 == "(exact |2| \"" + v1 + "\")" && s2 == "(exact |2| \"" + v2 + "\")";
    assert |v1| == |v2|;
    assert v1 == s1[12..12 + |v1|];
    assert v2 == s2[12..12 + |v2|];
  }

  /** The filter that keeps the one instance of the entity: its identifier is exactly the given value. */
  function InstanceFilter(s: Subject): FilterPlan
  {
    ExactFilter(s.entityName, s.idAttribute, s.idValue)
  }

  /** The set filter alone when it is set, else no filter at all. */
  function SetFilterOnly(setFilter: Option<FilterPlan>): (r: AccessFilters)
    ensures r.joiner.None?
    ensures Truthy(setFilter) <==> r.filters != []
    ensures r.filters != [] ==> r.filters == [setFilter]
  {
    if Truthy(setFilter) then AccessFilters([setFilter], None) else AccessFilters([], None)
  }

  /** The set filter when it is set, else None. */
  function SetOrNone(setFilter: Option<FilterPlan>): (r: Option<FilterPlan>)
    ensures r.Some? <==> Truthy(setFilter)
    ensures r.Some? ==> r == setFilter
  {
    if Truthy(setFilter) then setFilter else None
  }

  // ---------------------------------------------------------------------------
  // Ring lookups
  // ---------------------------------------------------------------------------

  /** `j[i]` with an integer index: an item of a list or a character of a string. */
  function Item(j: Json, i: nat): (r: Result<Json>)
    ensures j.JList? ==> (r.Ok? <==> i < |j.items|) && (r.Ok? ==> r.value == j.items[i])
    ensures r.Err? && (j.JList? || j.JStr?) ==> r.error == IndexError
  {
    match j
    case JList(l) => if i < |l| then Ok(l[i]) else Err(IndexError)
    case JStr(s) => if i < |s| then Ok(JStr([s[i]])) else Err(IndexError)
    case JObj(_) => Err(KeyError(NatToString(i)))
    case _ => Err(TypeError("object is not subscriptable"))
  }

  /**
   * The attribute named `metricName` of the first ring entity named
   * `entityName`: IndexError when there is no such entity, KeyError when it
   * has no such attribute.
   */
  function MetricAttribute(entities: seq<RingEntities.EntityState>, entityName: string, metricName: string): (r: Result<RingAttributes.AttributeState>)
    ensures (forall k :: 0 <= k < |entities| ==> entities[k].name != JStr(entityName)) ==> r == Err(IndexError)
    ensures r.Ok? ==> exists k :: 0 <= k < |entities| && entities[k].name == JStr(entityName) && Get(entities[k].attributes, metricName) == Some(r.value)
  {
    var e :- Rings.FirstWhere(entities, (e: RingEntities.EntityState) => e.name == JStr(entityName));
    match Get(e.attributes, metricName)
    case None => Err(KeyError(metricName))
    case Some(a) => Ok(a)
  }

  /**
   * What the constructor resolves: the metric's name (the aggregated
   * attribute's name when there is an aggregation), the access plan of
   * that attribute of the blueprint's entity, and its first nicename.
   * The "entity" access plan is read from the same attribute, so the two
   * access plans are always equal.
   */
  function ResolveMetric(s: Subject): (r: Result<Metric>)
    ensures r.Ok? ==> r.value.name == BlueprintUtils.BuildMetricName(s.metricAggregation, s.metricEntityName, s.metricAttributeName)
    ensures r.Ok? ==> r.value.entityAccessPlan == r.value.accessPlan
    ensures var a := MetricAttribute(s.entities, s.entityName, BlueprintUtils.BuildMetricName(s.metricAggregation, s.metricEntityName, s.metricAttributeName));
      r.Ok? <==> (a.Ok? && Item(a.value.nicename, 0).Ok?)
  {
    var name := BlueprintUtils.BuildMetricName(s.metricAggregation, s.metricEntityName, s.metricAttributeName);
    var attribute :- MetricAttribute(s.entities, s.entityName, name);
    var nicename :- Item(attribute.nicename, 0);
    Ok(Metric(name, attribute.accessPlan, attribute.accessPlan, nicename))
  }

  /** The plural nicename of the blueprint's entity, `get_entity_by_name(entity).nicename[1]`. */
  function EntityGroup(s: Subject): (r: Result<Json>)
    ensures Rings.EntityByName(s.entities, JStr(s.entityName)).Err? ==> r == Err(IndexError)
  {
    var e :- Rings.EntityByName(s.entities, JStr(s.entityName));
    Item(e.nicename, 1)
  }

  /**
   * Which way is better for the metric: the preference direction when it
   * is given, else the first entry of the metric entity's metric entry
   * for the attribute.
   */
  function TargetRange(s: Subject): (r: Result<Json>)
    ensures s.preferenceDirection != "" ==> r == Ok(JStr(s.preferenceDirection))
    ensures s.preferenceDirection == "" && Rings.EntityByName(s.entities, JStr(s.metricEntityName)).Err? ==> r == Err(IndexError)
  {
    if s.preferenceDirection != "" then Ok(JStr(s.preferenceDirection))
    else
      var e :- Rings.EntityByName(s.entities, JStr(s.metricEntityName));
      var m :- Subscript(e.metrics, s.metricAttributeName);
      Item(m, 0)
  }

  /** Whether higher values are better: the target range is "+inf". */
  predicate HigherIsBetter(target: Json)
  {
    target == JStr("+inf")
  }

  // ---------------------------------------------------------------------------
  // Composition specs
  // ---------------------------------------------------------------------------

  /** The spec a draft becomes with its base plan. */
  function Complete(d: Draft, basePlan: Json): CompositionSpec
  {
    CompositionSpec(d.planName, basePlan, d.accessPlans, d.slotFillers)
  }

  /** Whether the templates hold a base plan for every draft. */
  predicate AllTemplates(templates: Dict<Json>, drafts: seq<Draft>)
  {
    forall k :: 0 <= k < |drafts| ==> HasKey(templates, drafts[k].planName)
  }

  /**
   * The drafts completed in order with their base plans, the templates
   * looked up by plan name: a KeyError names the first draft whose plan
   * has no template.
   */
  function Compose(templates: Dict<Json>, drafts: seq<Draft>): (r: Result<seq<CompositionSpec>>)
    ensures r.Ok? <==> AllTemplates(templates, drafts)
    ensures r.Ok? ==> (|r.value| == |drafts| &&
      forall k :: 0 <= k < |drafts| ==> r.value[k] == Complete(drafts[k], Get(templates, drafts[k].planName).value))
    ensures r.Err? ==> exists k :: 0 <= k < |drafts| && !HasKey(templates, drafts[k].planName) && r.error == KeyError(drafts[k].planName)
  {
    if drafts == [] then Ok([])
    else
      match Get(templates, drafts[0].planName)
      case None => Err(KeyError(drafts[0].planName))
      case Some(basePlan) =>
        var rest :- Compose(templates, drafts[1..]);
        assert forall k :: 1 <= k < |drafts| ==> drafts[k] == drafts[1..][k - 1];
        Ok([Complete(drafts[0], basePlan)] + rest)
  }

  /** Composing two runs of drafts is composing them together. */
  lemma {:induction false} ComposeAppend(templates: Dict<Json>, a: seq<Draft>, b: seq<Draft>)
    requires AllTemplates(templates, a) && AllTemplates(templates, b)
    ensures Compose(templates, a + b) == Ok(Compose(templates, a).value + Compose(templates, b).value)
    decreases |a|
  {
    ComposeOk(templates, a);
    ComposeOk(templates, b);
    if a == [] {
      assert a + b == b;
      assert Compose(templates, a).value == [];
      var y := Compose(templates, b).value;
      assert Compose(templates, b) == Ok(y);
      assert [] + y == y;
    } else {
      var tail := a[1..];
      TailOfAppend(a, b);
      AllTemplatesTail(templates, a);
      ComposeAppend(templates, tail, b);
      ComposeOk(templates, tail);
      ComposeCons(templates, a);
      ComposeCons(templates, a + b);
      var c := Complete(a[0], Get(templates, a[0].planName).value);
      var x, y := Compose(templates, tail).value, Compose(templates, b).value;
      AppendAssoc([c], x, y);
    }
  }

  /** Concatenation is associative; stated apart so that no other fact is in scope. */
  lemma AppendAssoc<T>(a: seq<T>, b: seq<T>, c: seq<T>)
    ensures a + (b + c) == (a + b) + c
  {
  }

  /** The first item and the rest of a concatenation whose first run is not empty. */
  lemma TailOfAppend<T>(a: seq<T>, b: seq<T>)
    requires a != []
    ensures (a + b)[0] == a[0] && (a + b)[1..] == a[1..] + b
  {
  }

  /** Composing a non-empty run: the first draft completed, then the rest composed. */
  lemma ComposeCons(templates: Dict<Json>, a: seq<Draft>)
    requires a != [] && HasKey(templates, a[0].planName) && Compose(templates, a[1..]).Ok?
    ensures Compose(templates, a) ==
      Ok([Complete(a[0], Get(templates, a[0].planName).value)] + Compose(templates, a[1..]).value)
  {
  }

  /** The drafts after the first keep their templates. */
  lemma AllTemplatesTail(templates: Dict<Json>, a: seq<Draft>)
    requires a != [] && AllTemplates(templates, a)
    ensures HasKey(templates, a[0].planName) && AllTemplates(templates, a[1..])
  {
    forall k | 0 <= k < |a[1..]| ensures HasKey(templates, a[1..][k].planName) {
      assert a[1..][k] == a[k + 1];
    }
  }

  /** With a template for every draft, composing does not raise. */
  lemma ComposeOk(templates: Dict<Json>, drafts: seq<Draft>)
    requires AllTemplates(templates, drafts)
    ensures Compose(templates, drafts).Ok?
  {
  }

  /** The plan names of the drafts, in order. */
  function PlanNames(drafts: seq<Draft>): (r: seq<string>)
    ensures |r| == |drafts| && forall k :: 0 <= k < |drafts| ==> r[k] == drafts[k].planName
  {
    seq(|drafts|, k requires 0 <= k < |drafts| => drafts[k].planName)
  }

  /** The draft of a spec over one access plan "|A|". */
  function Single(planName: string, access: AccessSpec, fillers: Dict<Filler>): Draft
  {
    Draft(planName, [("|A|", access)], fillers)
  }

  /** The filler dictionary entry of a string. */
  function StrFiller(key: string, value: string): (string, Filler)
  {
    (key, Plain(JStr(value)))
  }

  // ---------------------------------------------------------------------------
  // Prompts
  // ---------------------------------------------------------------------------

  /** No text ends with both `u + t` and `v + t` when `u` and `v` differ `k` characters from their ends. */
  lemma SuffixesClash(r: string, u: string, v: string, t: string, k: nat)
    requires 0 < k <= |u| && k <= |v| && u[|u| - k] != v[|v| - k]
    ensures EndsWith(r, u + t) ==> !EndsWith(r, v + t)
  {
    if EndsWith(r, u + t) {
      var n := |r| - |t| - k;
      assert r[n] == (u + t)[|u| - k] == u[|u| - k];
      assert (v + t)[|v| - k] != r[n];
    }
  }
}
