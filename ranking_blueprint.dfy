/**
 * The ranking blueprint: the information a report needs to place one
 * entity instance in the ranking of all entities by a metric.
 */
module RankingBlueprints {

  import opened Wrappers
  import opened Dicts
  import opened Json
  import opened Blueprints
  import BlueprintUtils

  /** A constructed ranking blueprint. */
  datatype Ranking = Ranking(
    subject: Subject,
    setFilter: Option<FilterPlan>,
    sortDirection: string,
    limit: nat,
    entityGroup: Json,
    metric: Metric,
    instanceFilter: FilterPlan)

  /**
   * The constructor: the entity's plural nicename, then the metric, then
   * the instance filter; three top instances are listed.
   */
  function NewRanking(s: Subject, setFilter: Option<FilterPlan>, sortDirection: string): (r: Result<Ranking>)
    ensures r.Ok? <==> EntityGroup(s).Ok? && ResolveMetric(s).Ok?
    ensures r.Ok? ==> r.value.limit == 3 && r.value.instanceFilter == ExactFilter(s.entityName, s.idAttribute, s.idValue)
    ensures r.Ok? ==> r.value.metric.name == BlueprintUtils.BuildMetricName(s.metricAggregation, s.metricEntityName, s.metricAttributeName)
  {
    var group :- EntityGroup(s);
    var metric :- ResolveMetric(s);
    Ok(Ranking(s, setFilter, sortDirection, 3, group, metric, InstanceFilter(s)))
  }

  /** The metric's access plan, filtered by the set filter when there is one. */
  function MetricAccess(b: Ranking): AccessSpec
  {
    AccessSpec(b.metric.accessPlan, SetFilterOnly(b.setFilter))
  }

  /** The metric's access plan, always with the set filter in its filter list. */
  function MetricAccessWithSet(b: Ranking): AccessSpec
  {
    AccessSpec(b.metric.accessPlan, AccessFilters([b.setFilter], None))
  }

  /** The fillers that name the instance: its identifier value and its reference. */
  function InstanceFillers(b: Ranking): Dict<Filler>
  {
    [StrFiller("String:0", b.subject.idValue), StrFiller("EntityReference:0", b.subject.reference)]
  }

  /** The instance's value of the metric. */
  function InstanceMetricValue(b: Ranking): Draft
  {
    Single("InstanceMetricValue", MetricAccess(b), InstanceFillers(b) + [StrFiller("Filter:0", "")])
  }

  /** The number of entities ranked. */
  function EntityCount(b: Ranking): Draft
  {
    Single("EntityCount", AccessSpec(b.metric.entityAccessPlan, SetFilterOnly(b.setFilter)), [])
  }

  /** The instance's rank in the sort direction. */
  function InstanceRank(b: Ranking): Draft
  {
    Single("InstanceRank", MetricAccess(b), InstanceFillers(b) + [StrFiller("Direction:0", b.sortDirection)])
  }

  /** The top three instances of a descending ranking, the bottom three otherwise. */
  function TopThree(b: Ranking): Draft
  {
    var plan := if b.sortDirection == "desc" then "TopThreeForMetric" else "BottomThreeForMetric";
    Single(plan, MetricAccess(b), [("Quantity:0", Plain(JInt(b.limit)))])
  }

  /** How far the instance is from the top: the maximum of a descending ranking, the minimum otherwise. */
  function DistanceFromTop(b: Ranking): Draft
  {
    var plan := if b.sortDirection == "desc" then "InstanceDistanceFromMax" else "InstanceDistanceFromMin";
    Draft(plan, [("|A|", MetricAccess(b)), ("|B|", MetricAccess(b))], InstanceFillers(b) + [("String:1", Plain(b.entityGroup))])
  }

  /** The metric aggregated over all ranked entities. */
  function AggregatedMetric(b: Ranking, aggregation: string): Draft
  {
    Single("AggregateMetric", MetricAccessWithSet(b), [StrFiller("Analysis:0", aggregation), StrFiller("Filter:0", "")])
  }

  /** Whether the instance is better than the average: greater when higher is better, less otherwise. */
  function ComparedToAverage(b: Ranking, target: Json): Draft
  {
    var plan := if HigherIsBetter(target) then "InstanceGreaterThanAggregatedMetric" else "InstanceLessThanAggregatedMetric";
    Draft(plan, [("|A|", MetricAccessWithSet(b)), ("|B|", MetricAccess(b))], [StrFiller("Analysis:0", "average")] + InstanceFillers(b))
  }

  /** The specs before the comparison with the average, in the order they are appended. */
  function LeadingDrafts(b: Ranking): seq<Draft>
  {
    [InstanceMetricValue(b), EntityCount(b), InstanceRank(b), TopThree(b), DistanceFromTop(b),
     AggregatedMetric(b, "average"), AggregatedMetric(b, "min"), AggregatedMetric(b, "max")]
  }

  /**
   * `get_plan_composition_specs`: eight specs, then the target range is
   * read for the ninth.
   */
  function PlanCompositionSpecs(b: Ranking): Result<seq<CompositionSpec>>
  {
    var front :- Compose(b.subject.templates, LeadingDrafts(b));
    var target :- TargetRange(b.subject);
    var last :- Compose(b.subject.templates, [ComparedToAverage(b, target)]);
    Ok(front + last)
  }

  /** All nine drafts, the last one for the given target range. */
  function AllDrafts(b: Ranking, target: Json): seq<Draft>
  {
    LeadingDrafts(b) + [ComparedToAverage(b, target)]
  }

  /** The plan names of the nine specs, in order, for a sort direction and whether higher is better. */
  function RankingPlanNames(sortDirection: string, higher: bool): seq<string>
  {
    var desc := sortDirection == "desc";
    ["InstanceMetricValue", "EntityCount", "InstanceRank",
     if desc then "TopThreeForMetric" else "BottomThreeForMetric",
     if desc then "InstanceDistanceFromMax" else "InstanceDistanceFromMin",
     "AggregateMetric", "AggregateMetric", "AggregateMetric",
     if higher then "InstanceGreaterThanAggregatedMetric" else "InstanceLessThanAggregatedMetric"]
  }

  /**
   * The specs are composed exactly when every plan has a template and the
   * target range can be read; they are then the nine drafts, in order,
   * each with its template.
   */
  lemma SpecsAreDrafts(b: Ranking)
    ensures var r := PlanCompositionSpecs(b);
      var t := TargetRange(b.subject);
      r.Ok? <==> (AllTemplates(b.subject.templates, LeadingDrafts(b)) && t.Ok? && AllTemplates(b.subject.templates, [ComparedToAverage(b, t.value)]))
    ensures var r := PlanCompositionSpecs(b);
      r.Ok? ==> |r.value| == 9 && forall k :: 0 <= k < 9 ==>
        var d := AllDrafts(b, TargetRange(b.subject).value)[k];
        r.value[k].planName == d.planName && r.value[k].accessPlans == d.accessPlans && r.value[k].slotFillers == d.slotFillers
  {
    var r := PlanCompositionSpecs(b);
    if r.Ok? {
      ComposeAppend(b.subject.templates, LeadingDrafts(b), [ComparedToAverage(b, TargetRange(b.subject).value)]);
    }
  }

  lemma DraftNames(b: Ranking, target: Json)
    ensures |AllDrafts(b, target)| == 9
    ensures forall k :: 0 <= k < 9 ==> AllDrafts(b, target)[k].planName == RankingPlanNames(b.sortDirection, HigherIsBetter(target))[k]
  {
    var d, names := AllDrafts(b, target), RankingPlanNames(b.sortDirection, HigherIsBetter(target));
    assert d == [InstanceMetricValue(b), EntityCount(b), InstanceRank(b), TopThree(b), DistanceFromTop(b),
      AggregatedMetric(b, "average"), AggregatedMetric(b, "min"), AggregatedMetric(b, "max"), ComparedToAverage(b, target)];
    assert PlanNames(d) == names;
  }

  /** There are nine specs, named in order after the sort direction and the target range. */
  lemma PlanOrder(b: Ranking)
    ensures var r := PlanCompositionSpecs(b);
      r.Ok? ==> |r.value| == 9 && forall k :: 0 <= k < 9 ==>
        r.value[k].planName == RankingPlanNames(b.sortDirection, HigherIsBetter(TargetRange(b.subject).value))[k]
  {
    SpecsAreDrafts(b);
    if PlanCompositionSpecs(b).Ok? {
      DraftNames(b, TargetRange(b.subject).value);
    }
  }

  lemma DraftFilters(b: Ranking, target: Json)
    ensures var d := AllDrafts(b, target);
      && |d| == 9
      && (forall k :: 0 <= k < 5 ==> forall j :: 0 <= j < |d[k].accessPlans| ==> d[k].accessPlans[j].1.filters == SetFilterOnly(b.setFilter))
      && (forall k :: 5 <= k < 8 ==> d[k].accessPlans == [("|A|", AccessSpec(b.metric.accessPlan, AccessFilters([b.setFilter], None)))])
      && |d[8].accessPlans| == 2
      && d[8].accessPlans[0].1.filters.filters == [b.setFilter]
      && d[8].accessPlans[1].1.filters == SetFilterOnly(b.setFilter)
  {
    var d := AllDrafts(b, target);
    assert d == [InstanceMetricValue(b), EntityCount(b), InstanceRank(b), TopThree(b), DistanceFromTop(b),
      AggregatedMetric(b, "average"), AggregatedMetric(b, "min"), AggregatedMetric(b, "max"), ComparedToAverage(b, target)];
  }

  /**
   * The set filter: every spec but the aggregates reads the metric with the
   * set filter when it is set and with no filter otherwise; the aggregates,
   * and the first access plan of the comparison, always list it.
   */
  lemma SetFilters(b: Ranking)
    ensures var r := PlanCompositionSpecs(b);
      r.Ok? ==>
        && (forall k :: 0 <= k < 5 ==> forall j :: 0 <= j < |r.value[k].accessPlans| ==> r.value[k].accessPlans[j].1.filters == SetFilterOnly(b.setFilter))
        && (forall k :: 5 <= k < 8 ==> r.value[k].accessPlans == [("|A|", AccessSpec(b.metric.accessPlan, AccessFilters([b.setFilter], None)))])
        && |r.value[8].accessPlans| == 2
        && r.value[8].accessPlans[0].1.filters.filters == [b.setFilter]
        && r.value[8].accessPlans[1].1.filters == SetFilterOnly(b.setFilter)
  {
    SpecsAreDrafts(b);
    if PlanCompositionSpecs(b).Ok? {
      DraftFilters(b, TargetRange(b.subject).value);
    }
  }

  lemma DraftTopThreeAndDistance(b: Ranking, target: Json)
    ensures var d := AllDrafts(b, target);
      && |d| == 9
      && d[3].slotFillers == [("Quantity:0", Plain(JInt(b.limit)))]
      && Keys(d[4].accessPlans) == ["|A|", "|B|"]
  {
  }

  /**
   * The fourth spec lists the top three of a descending ranking and the
   * bottom three otherwise; the fifth measures the distance from the top
   * over two access plans "|A|" and "|B|".
   */
  lemma TopThreeAndDistance(b: Ranking)
    requires b.limit == 3
    ensures var r := PlanCompositionSpecs(b);
      r.Ok? ==>
        && (r.value[3].planName == "TopThreeForMetric" <==> b.sortDirection == "desc")
        && r.value[3].slotFillers == [("Quantity:0", Plain(JInt(3)))]
        && (r.value[4].planName == "InstanceDistanceFromMax" <==> b.sortDirection == "desc")
        && Keys(r.value[4].accessPlans) == ["|A|", "|B|"]
  {
    var r := PlanCompositionSpecs(b);
    if r.Ok? {
      var t := TargetRange(b.subject).value;
      var names := RankingPlanNames(b.sortDirection, HigherIsBetter(t));
      assert r.value[3].planName == names[3] && r.value[4].planName == names[4] by {
        PlanOrder(b);
      }
      NamesByDirection(b.sortDirection, HigherIsBetter(t));
      assert r.value[3].slotFillers == AllDrafts(b, t)[3].slotFillers && r.value[4].accessPlans == AllDrafts(b, t)[4].accessPlans by {
        SpecsAreDrafts(b);
      }
      DraftTopThreeAndDistance(b, t);
    }
  }

  lemma NamesByDirection(sortDirection: string, higher: bool)
    ensures RankingPlanNames(sortDirection, higher)[3] == "TopThreeForMetric" <==> sortDirection == "desc"
    ensures RankingPlanNames(sortDirection, higher)[4] == "InstanceDistanceFromMax" <==> sortDirection == "desc"
    ensures RankingPlanNames(sortDirection, higher)[8] == "InstanceGreaterThanAggregatedMetric" <==> higher
  {
  }

  /** The last spec asks whether the instance is greater than the average exactly when higher values are better. */
  lemma ComparisonDirection(b: Ranking)
    ensures var r := PlanCompositionSpecs(b);
      r.Ok? ==> (r.value[8].planName == "InstanceGreaterThanAggregatedMetric" <==> TargetRange(b.subject) == Ok(JStr("+inf")))
  {
    var r := PlanCompositionSpecs(b);
    if r.Ok? {
      var t := TargetRange(b.subject).value;
      assert r.value[8].planName == RankingPlanNames(b.sortDirection, HigherIsBetter(t))[8] by {
        PlanOrder(b);
      }
      NamesByDirection(b.sortDirection, HigherIsBetter(t));
    }
  }
}
