/**
 * The time over time blueprint: the information a report needs to describe
 * how a metric of one entity instance changed between two times, and how
 * that change compares with the change over all entities.
 */
module TimeOverTimeBlueprints {

  import opened Wrappers
  import opened Dicts
  import opened Text
  import opened Json
  import opened Blueprints
  import BlueprintUtils

  /** A constructed time over time blueprint. */
  datatype TimeOverTime = TimeOverTime(
    subject: Subject,
    setFilter: Option<FilterPlan>,
    timeAttribute: string,
    timeZero: string,
    timeOne: string,
    entityGroup: Json,
    metric: Metric,
    instanceFilter: FilterPlan,
    timeZeroFilter: FilterPlan,
    timeOneFilter: FilterPlan)

  /** `get_time_filter`: the rows of the metric entity whose time attribute is exactly the quoted time. */
  function TimeFilter(s: Subject, timeAttribute: string, time: string): FilterPlan
  {
    ExactFilter(s.metricEntityName, timeAttribute, time)
  }

  /**
   * The constructor: the entity's plural nicename, then the metric, then
   * the instance filter and the filters of both times.
   */
  function NewTimeOverTime(s: Subject, setFilter: Option<FilterPlan>, timeAttribute: string, timeZero: string, timeOne: string): (r: Result<TimeOverTime>)
    ensures r.Ok? <==> EntityGroup(s).Ok? && ResolveMetric(s).Ok?
    ensures r.Err? && EntityGroup(s).Err? ==> r.error == EntityGroup(s).error
    ensures r.Ok? ==> r.value.metric.name == BlueprintUtils.BuildMetricName(s.metricAggregation, s.metricEntityName, s.metricAttributeName)
    ensures r.Ok? ==> r.value.instanceFilter == ExactFilter(s.entityName, s.idAttribute, s.idValue)
    ensures r.Ok? ==> r.value.timeZeroFilter == ExactFilter(s.metricEntityName, timeAttribute, timeZero)
    ensures r.Ok? ==> r.value.timeOneFilter == ExactFilter(s.metricEntityName, timeAttribute, timeOne)
  {
    var group :- EntityGroup(s);
    var metric :- ResolveMetric(s);
    Ok(TimeOverTime(s, setFilter, timeAttribute, timeZero, timeOne, group, metric, InstanceFilter(s),
      TimeFilter(s, timeAttribute, timeZero), TimeFilter(s, timeAttribute, timeOne)))
  }

  /** The two time filters are the same filter exactly when the two times are the same. */
  lemma TimeFiltersDistinguish(s: Subject, timeAttribute: string, timeZero: string, timeOne: string)
    ensures TimeFilter(s, timeAttribute, timeZero) == TimeFilter(s, timeAttribute, timeOne) <==> timeZero == timeOne
  {
    if TimeFilter(s, timeAttribute, timeZero) == TimeFilter(s, timeAttribute, timeOne) {
      ExactFilterInjective(s.metricEntityName, timeAttribute, timeZero, timeOne);
    }
  }

  /** The metric of the instance at a time: the time filter, the instance filter and the set filter or None, joined with "and". */
  function InstanceAt(b: TimeOverTime, timeFilter: FilterPlan): AccessSpec
  {
    AccessSpec(b.metric.accessPlan, AccessFilters([Some(timeFilter), Some(b.instanceFilter), SetOrNone(b.setFilter)], Some("and")))
  }

  /** The metric of all entities at a time: the time filter and the set filter or None, joined with "and". */
  function AllAt(b: TimeOverTime, timeFilter: FilterPlan): AccessSpec
  {
    AccessSpec(b.metric.accessPlan, AccessFilters([Some(timeFilter), SetOrNone(b.setFilter)], Some("and")))
  }

  /** The fillers of the instance's value at a time. */
  function InstanceFillers(b: TimeOverTime, time: string): Dict<Filler>
  {
    [StrFiller("String:0", b.subject.idValue), StrFiller("EntityReference:0", b.subject.reference), StrFiller("Filter:0", "for " + time)]
  }

  /** The fillers of an aggregate at a time. */
  function AggregateFillers(aggregation: string, time: string): Dict<Filler>
  {
    [StrFiller("Analysis:0", aggregation), StrFiller("Filter:0", "for " + time)]
  }

  /** `get_instance_metric_value_at_time`. */
  function InstanceValueAt(b: TimeOverTime, timeFilter: FilterPlan, time: string): Draft
  {
    Single("InstanceMetricValue", InstanceAt(b, timeFilter), InstanceFillers(b, time))
  }

  /** `get_aggregated_metric_value_at_time`. */
  function AggregateAt(b: TimeOverTime, aggregation: string, timeFilter: FilterPlan, time: string): Draft
  {
    Single("AggregateMetric", AllAt(b, timeFilter), AggregateFillers(aggregation, time))
  }

  /** The fillers naming the two times. */
  function TimeFillers(b: TimeOverTime): Dict<Filler>
  {
    [StrFiller("Filter:0", b.timeZero), StrFiller("Filter:1", b.timeOne)]
  }

  /** `get_instance_percent_change_over_time`: the instance at the first time as "|A|", at the second as "|B|". */
  function InstanceChange(b: TimeOverTime): Draft
  {
    Draft("InstancePercentChangeOverTime",
      [("|A|", InstanceAt(b, b.timeZeroFilter)), ("|B|", InstanceAt(b, b.timeOneFilter))],
      [StrFiller("EntityReference:0", b.subject.reference)] + TimeFillers(b))
  }

  /** `get_average_percent_change_over_time`: all entities at the first time as "|A|", at the second as "|B|". */
  function AverageChange(b: TimeOverTime): Draft
  {
    Draft("AggregatePercentChangeOverTime",
      [("|A|", AllAt(b, b.timeZeroFilter)), ("|B|", AllAt(b, b.timeOneFilter))],
      [StrFiller("Analysis:0", "average"), StrFiller("EntityReference:0", b.subject.reference), ("String:0", Plain(b.entityGroup))]
        + TimeFillers(b))
  }

  const ChangeComparison := "InstancePercentChangeOverTimeGreaterThanAggregatePercentChangeOverTime"

  /** `get_is_instance_cot_greater_than_average_cot`: the instance at both times, then all entities at both times. */
  function ChangeCompared(b: TimeOverTime): Draft
  {
    Draft(ChangeComparison,
      [("|A|", InstanceAt(b, b.timeZeroFilter)), ("|B|", InstanceAt(b, b.timeOneFilter)),
       ("|C|", AllAt(b, b.timeZeroFilter)), ("|D|", AllAt(b, b.timeOneFilter))],
      [StrFiller("Analysis:0", "average"), StrFiller("EntityReference:0", b.subject.reference)]
        + TimeFillers(b) + [("String:0", Plain(b.entityGroup))])
  }

  /** The eleven drafts, in the order they are appended. */
  function AllDrafts(b: TimeOverTime): seq<Draft>
  {
    [InstanceValueAt(b, b.timeZeroFilter, b.timeZero), InstanceValueAt(b, b.timeOneFilter, b.timeOne), InstanceChange(b),
     AggregateAt(b, "average", b.timeZeroFilter, b.timeZero), AggregateAt(b, "min", b.timeZeroFilter, b.timeZero),
     AggregateAt(b, "max", b.timeZeroFilter, b.timeZero),
     AggregateAt(b, "average", b.timeOneFilter, b.timeOne), AggregateAt(b, "min", b.timeOneFilter, b.timeOne),
     AggregateAt(b, "max", b.timeOneFilter, b.timeOne),
     AverageChange(b), ChangeCompared(b)]
  }

  /** `get_plan_composition_specs`: every draft completed with its base plan, in order. */
  function PlanCompositionSpecs(b: TimeOverTime): Result<seq<CompositionSpec>>
  {
    Compose(b.subject.templates, AllDrafts(b))
  }

  /** The plan names of the eleven specs. */
  const TimePlanNames: seq<string> :=
    ["InstanceMetricValue", "InstanceMetricValue", "InstancePercentChangeOverTime",
     "AggregateMetric", "AggregateMetric", "AggregateMetric", "AggregateMetric", "AggregateMetric", "AggregateMetric",
     "AggregatePercentChangeOverTime", ChangeComparison]

  /**
   * The specs are composed exactly when each of the five plans has a base
   * plan; there are then eleven, named in order.
   */
  lemma PlanOrder(b: TimeOverTime)
    ensures var r := PlanCompositionSpecs(b);
      && (r.Ok? <==> forall k :: 0 <= k < 11 ==> HasKey(b.subject.templates, TimePlanNames[k]))
      && (r.Ok? ==> |r.value| == 11 && forall k :: 0 <= k < 11 ==>
            && r.value[k].planName == TimePlanNames[k]
            && r.value[k].basePlan == Get(b.subject.templates, TimePlanNames[k]).value)
      && (r.Err? ==> exists k :: 0 <= k < 11 && !HasKey(b.subject.templates, TimePlanNames[k]) && r.error == KeyError(TimePlanNames[k]))
  {
    assert PlanNames(AllDrafts(b)) == TimePlanNames;
  }

  /** The specs are the drafts, in order, once composed. */
  lemma SpecsAreDrafts(b: TimeOverTime)
    ensures var r := PlanCompositionSpecs(b);
      r.Ok? ==> |r.value| == 11 && forall k :: 0 <= k < 11 ==>
        r.value[k].accessPlans == AllDrafts(b)[k].accessPlans && r.value[k].slotFillers == AllDrafts(b)[k].slotFillers
  {
  }

  /** The access plans of each draft. */
  lemma DraftReadings(b: TimeOverTime)
    ensures var d := AllDrafts(b);
      && |d| == 11
      && d[0].accessPlans == [("|A|", InstanceAt(b, b.timeZeroFilter))]
      && d[1].accessPlans == [("|A|", InstanceAt(b, b.timeOneFilter))]
      && d[2].accessPlans == [("|A|", InstanceAt(b, b.timeZeroFilter)), ("|B|", InstanceAt(b, b.timeOneFilter))]
      && d[3].accessPlans == d[4].accessPlans == d[5].accessPlans == [("|A|", AllAt(b, b.timeZeroFilter))]
      && d[6].accessPlans == d[7].accessPlans == d[8].accessPlans == [("|A|", AllAt(b, b.timeOneFilter))]
      && d[9].accessPlans == [("|A|", AllAt(b, b.timeZeroFilter)), ("|B|", AllAt(b, b.timeOneFilter))]
      && d[10].accessPlans == [("|A|", InstanceAt(b, b.timeZeroFilter)), ("|B|", InstanceAt(b, b.timeOneFilter)),
                               ("|C|", AllAt(b, b.timeZeroFilter)), ("|D|", AllAt(b, b.timeOneFilter))]
  {
  }

  /**
   * The value of the instance at the first and at the second time, then
   * the average, minimum and maximum over all entities at the first time
   * and again at the second, each stating its time.
   */
  lemma ValuesAtTimes(b: TimeOverTime)
    ensures var r := PlanCompositionSpecs(b);
      r.Ok? ==>
        && |r.value| == 11
        && r.value[0].accessPlans == [("|A|", InstanceAt(b, b.timeZeroFilter))]
        && r.value[1].accessPlans == [("|A|", InstanceAt(b, b.timeOneFilter))]
        && r.value[0].slotFillers == InstanceFillers(b, b.timeZero)
        && r.value[1].slotFillers == InstanceFillers(b, b.timeOne)
        && r.value[3].accessPlans == r.value[4].accessPlans == r.value[5].accessPlans == [("|A|", AllAt(b, b.timeZeroFilter))]
        && r.value[6].accessPlans == r.value[7].accessPlans == r.value[8].accessPlans == [("|A|", AllAt(b, b.timeOneFilter))]
        && r.value[3].slotFillers == AggregateFillers("average", b.timeZero)
        && r.value[4].slotFillers == AggregateFillers("min", b.timeZero)
        && r.value[5].slotFillers == AggregateFillers("max", b.timeZero)
        && r.value[6].slotFillers == AggregateFillers("average", b.timeOne)
        && r.value[7].slotFillers == AggregateFillers("min", b.timeOne)
        && r.value[8].slotFillers == AggregateFillers("max", b.timeOne)
  {
    SpecsAreDrafts(b);
    DraftReadings(b);
  }

  /**
   * The instance's change reads the instance at the first time as "|A|" and
   * at the second as "|B|"; the change over all entities reads all entities
   * likewise; the final comparison reads the instance at both times, then
   * all entities at both times.
   */
  lemma ChangesOverTime(b: TimeOverTime)
    ensures var r := PlanCompositionSpecs(b);
      r.Ok? ==>
        && |r.value| == 11
        && r.value[2].accessPlans == [("|A|", InstanceAt(b, b.timeZeroFilter)), ("|B|", InstanceAt(b, b.timeOneFilter))]
        && r.value[9].accessPlans == [("|A|", AllAt(b, b.timeZeroFilter)), ("|B|", AllAt(b, b.timeOneFilter))]
        && r.value[10].accessPlans == [("|A|", InstanceAt(b, b.timeZeroFilter)), ("|B|", InstanceAt(b, b.timeOneFilter)),
                                       ("|C|", AllAt(b, b.timeZeroFilter)), ("|D|", AllAt(b, b.timeOneFilter))]
  {
    SpecsAreDrafts(b);
    DraftReadings(b);
  }

  /**
   * Every reading filters by a time, joined with "and", and ends its filter
   * list with the set filter when it is set and with None when it is not.
   */
  lemma SetFilterLast(b: TimeOverTime, timeFilter: FilterPlan)
    ensures var i, a := InstanceAt(b, timeFilter).filters, AllAt(b, timeFilter).filters;
      && i.joiner == a.joiner == Some("and")
      && i.filters[0] == a.filters[0] == Some(timeFilter)
      && i.filters[1] == Some(b.instanceFilter)
      && i.filters[|i.filters| - 1] == a.filters[|a.filters| - 1] == (if Blueprints.Truthy(b.setFilter) then b.setFilter else None)
  {
  }

  // ---------------------------------------------------------------------------
  // The prompt
  // ---------------------------------------------------------------------------

  const ConsideredBetter := " values are considered better."
  const HigherBetter := "Higher" + ConsideredBetter
  const LowerBetter := "Lower" + ConsideredBetter

  /**
   * `build_baseline_prompt`: the instance, the metric and the two times,
   * the filter statement when there is one, and which values are better.
   */
  function BaselinePrompt(b: TimeOverTime, reference: string, filterStatement: string): (r: string)
    ensures StartsWith(r, "Generate a report for " + reference)
    ensures EndsWith(r, if b.subject.preferenceDirection == "+inf" then HigherBetter else LowerBetter)
  {
    var head := "Generate a report for " + reference + " describing how " + PyStr(b.metric.nicename)
      + " has changed over time between " + b.timeZero + " and " + b.timeOne
      + (if filterStatement != "" then " " + filterStatement else "") + ". ";
    var tail := if b.subject.preferenceDirection == "+inf" then HigherBetter else LowerBetter;
    assert StartsWith(head + tail, "Generate a report for " + reference) by {
      var p := "Generate a report for " + reference;
      assert head == p + (head[|p|..]);
      assert (head + tail)[..|p|] == p;
    }
    assert (head + tail)[|head + tail| - |tail|..] == tail;
    head + tail
  }

  /** The prompt says higher values are better exactly when the preference direction is "+inf". */
  lemma PromptDirection(b: TimeOverTime, reference: string, filterStatement: string)
    ensures EndsWith(BaselinePrompt(b, reference, filterStatement), HigherBetter) <==> b.subject.preferenceDirection == "+inf"
  {
    var u, v := "Higher", "Lower";
    assert u[|u| - 5] != v[|v| - 5];
    SuffixesClash(BaselinePrompt(b, reference, filterStatement), u, v, ConsideredBetter, 5);
  }
}
