/**
 * The comparative benchmark blueprint: the information a report needs to
 * compare one entity instance with a target value of a metric and with the
 * other entities of a comparison set.
 */
module BenchmarkBlueprints {

  import opened Wrappers
  import opened Dicts
  import opened Text
  import opened Json
  import opened Blueprints
  import BlueprintUtils

  /** A constructed comparative benchmark blueprint. */
  datatype Benchmark = Benchmark(
    subject: Subject,
    comparisonFilter: Option<FilterPlan>,
    sortDirection: string,
    target: real,
    metric: Metric,
    instanceFilter: FilterPlan,
    notInstanceFilter: FilterPlan)

  /** The filter that keeps every instance but this one: the instance filter negated by a fourth step. */
  function NotInstanceFilter(s: Subject): (r: FilterPlan)
    ensures r == InstanceFilter(s) + [("|4|", "(not |3|)")]
    ensures Keys(r) == ["|1|", "|2|", "|3|", "|4|"]
  {
    var f := [("|1|", "(retrieve_entity " + s.entityName + ")"),
              ("|2|", "(retrieve_attribute |1| " + s.idAttribute + ")"),
              ("|3|", "(exact |2| \"" + s.idValue + "\")"),
              ("|4|", "(not |3|)")];
    assert f[..3] == InstanceFilter(s);
    assert f == f[..3] + [f[3]];
    f
  }

  /** The constructor: the metric, then the instance filter and its negation. */
  function NewBenchmark(s: Subject, comparisonFilter: Option<FilterPlan>, sortDirection: string, target: real): (r: Result<Benchmark>)
    ensures r.Ok? <==> ResolveMetric(s).Ok?
    ensures r.Ok? ==> r.value.instanceFilter == ExactFilter(s.entityName, s.idAttribute, s.idValue)
    ensures r.Ok? ==> r.value.notInstanceFilter == r.value.instanceFilter + [("|4|", "(not |3|)")]
    ensures r.Ok? ==> r.value.metric.name == BlueprintUtils.BuildMetricName(s.metricAggregation, s.metricEntityName, s.metricAttributeName)
  {
    var metric :- ResolveMetric(s);
    Ok(Benchmark(s, comparisonFilter, sortDirection, target, metric, InstanceFilter(s), NotInstanceFilter(s)))
  }

  /** The metric over the comparison set. */
  function InComparisonSet(b: Benchmark, joiner: Option<string>): AccessSpec
  {
    AccessSpec(b.metric.accessPlan, AccessFilters([b.comparisonFilter], joiner))
  }

  /** The metric over the comparison set without the instance. */
  function OthersInSet(b: Benchmark): AccessSpec
  {
    AccessSpec(b.metric.accessPlan, AccessFilters([b.comparisonFilter, Some(b.notInstanceFilter)], Some("and")))
  }

  function InstanceFillers(b: Benchmark): Dict<Filler>
  {
    [StrFiller("String:0", b.subject.idValue), StrFiller("EntityReference:0", b.subject.reference)]
  }

  /** The instance's value of the metric. */
  function InstanceMetricValue(b: Benchmark): Draft
  {
    Single("InstanceMetricValue", InComparisonSet(b, None), InstanceFillers(b) + [StrFiller("Filter:0", "")])
  }

  /** Whether the instance is better than the benchmark target: greater when higher is better, less otherwise. */
  function ComparedToTarget(b: Benchmark, range: Json): Draft
  {
    var plan := if HigherIsBetter(range) then "InstanceGreaterThanQuantity" else "InstanceLessThanQuantity";
    Single(plan, InComparisonSet(b, None), InstanceFillers(b) + [("Quantity:0", Float(b.target))])
  }

  /** The fillers of an aggregate: the aggregation and no filter statement. */
  function AggregateFillers(aggregation: string): Dict<Filler>
  {
    [StrFiller("Analysis:0", aggregation), StrFiller("Filter:0", "")]
  }

  /** The metric aggregated over the other entities of the comparison set. */
  function AggregatedMetric(b: Benchmark, aggregation: string): Draft
  {
    Single("AggregateMetric", OthersInSet(b), AggregateFillers(aggregation))
  }

  /** Whether the instance is better than the aggregate of the others. */
  function ComparedToOthers(b: Benchmark, range: Json, aggregation: string): Draft
  {
    var plan := if HigherIsBetter(range) then "InstanceGreaterThanAggregatedMetric" else "InstanceLessThanAggregatedMetric";
    Draft(plan, [("|A|", OthersInSet(b)), ("|B|", InComparisonSet(b, Some("and")))], [StrFiller("Analysis:0", aggregation)] + InstanceFillers(b))
  }

  /** The specs after the first one, for the target range. */
  function TrailingDrafts(b: Benchmark, range: Json): seq<Draft>
  {
    [ComparedToTarget(b, range), AggregatedMetric(b, "min"), AggregatedMetric(b, "max"),
     AggregatedMetric(b, "median"), ComparedToOthers(b, range, "median"),
     AggregatedMetric(b, "average"), ComparedToOthers(b, range, "average"),
     AggregatedMetric(b, "stddev")]
  }

  /** All nine drafts. */
  function AllDrafts(b: Benchmark, range: Json): seq<Draft>
  {
    [InstanceMetricValue(b)] + TrailingDrafts(b, range)
  }

  /** `get_plan_composition_specs`: the first spec, then the target range is read for the rest. */
  function PlanCompositionSpecs(b: Benchmark): Result<seq<CompositionSpec>>
  {
    var first :- Compose(b.subject.templates, [InstanceMetricValue(b)]);
    var range :- TargetRange(b.subject);
    var rest :- Compose(b.subject.templates, TrailingDrafts(b, range));
    Ok(first + rest)
  }

  /** The plan names of the nine specs, in order. */
  function BenchmarkPlanNames(higher: bool): seq<string>
  {
    var compared := if higher then "InstanceGreaterThanAggregatedMetric" else "InstanceLessThanAggregatedMetric";
    ["InstanceMetricValue", if higher then "InstanceGreaterThanQuantity" else "InstanceLessThanQuantity",
     "AggregateMetric", "AggregateMetric", "AggregateMetric", compared, "AggregateMetric", compared, "AggregateMetric"]
  }

  /**
   * The specs are composed exactly when every plan has a template and the
   * target range can be read; they are then the nine drafts, in order.
   */
  lemma SpecsAreDrafts(b: Benchmark)
    ensures var r := PlanCompositionSpecs(b);
      var t := TargetRange(b.subject);
      r.Ok? <==> (AllTemplates(b.subject.templates, [InstanceMetricValue(b)]) && t.Ok? && AllTemplates(b.subject.templates, TrailingDrafts(b, t.value)))
    ensures var r := PlanCompositionSpecs(b);
      r.Ok? ==> |r.value| == 9 && forall k :: 0 <= k < 9 ==>
        var d := AllDrafts(b, TargetRange(b.subject).value)[k];
        r.value[k].planName == d.planName && r.value[k].accessPlans == d.accessPlans && r.value[k].slotFillers == d.slotFillers
  {
    var r := PlanCompositionSpecs(b);
    if r.Ok? {
      ComposeAppend(b.subject.templates, [InstanceMetricValue(b)], TrailingDrafts(b, TargetRange(b.subject).value));
    }
  }

  lemma DraftNames(b: Benchmark, range: Json)
    ensures |AllDrafts(b, range)| == 9
    ensures forall k :: 0 <= k < 9 ==> AllDrafts(b, range)[k].planName == BenchmarkPlanNames(HigherIsBetter(range))[k]
  {
    var d := AllDrafts(b, range);
    assert d == [InstanceMetricValue(b), ComparedToTarget(b, range), AggregatedMetric(b, "min"), AggregatedMetric(b, "max"),
      AggregatedMetric(b, "median"), ComparedToOthers(b, range, "median"), AggregatedMetric(b, "average"),
      ComparedToOthers(b, range, "average"), AggregatedMetric(b, "stddev")];
    assert PlanNames(d) == BenchmarkPlanNames(HigherIsBetter(range));
  }

  /** There are nine specs, named in order after the target range. */
  lemma PlanOrder(b: Benchmark)
    ensures var r := PlanCompositionSpecs(b);
      r.Ok? ==> |r.value| == 9 && forall k :: 0 <= k < 9 ==>
        r.value[k].planName == BenchmarkPlanNames(HigherIsBetter(TargetRange(b.subject).value))[k]
  {
    SpecsAreDrafts(b);
    if PlanCompositionSpecs(b).Ok? {
      DraftNames(b, TargetRange(b.subject).value);
    }
  }

  lemma DraftAggregates(b: Benchmark, range: Json)
    ensures var d := AllDrafts(b, range);
      && |d| == 9
      && (forall k :: k in {2, 3, 4, 6, 8} ==> d[k].accessPlans == [("|A|", OthersInSet(b))])
      && d[2].slotFillers == AggregateFillers("min")
      && d[3].slotFillers == AggregateFillers("max")
      && d[4].slotFillers == AggregateFillers("median")
      && d[6].slotFillers == AggregateFillers("average")
      && d[8].slotFillers == AggregateFillers("stddev")
  {
    var d := AllDrafts(b, range);
    assert d == [InstanceMetricValue(b), ComparedToTarget(b, range), AggregatedMetric(b, "min"), AggregatedMetric(b, "max"),
      AggregatedMetric(b, "median"), ComparedToOthers(b, range, "median"), AggregatedMetric(b, "average"),
      ComparedToOthers(b, range, "average"), AggregatedMetric(b, "stddev")];
  }

  /**
   * The min, max, median, average and standard deviation specs aggregate
   * over the comparison set and the filter that excludes the instance,
   * joined with "and".
   */
  lemma AggregatesExcludeInstance(b: Benchmark)
    ensures var r := PlanCompositionSpecs(b);
      r.Ok? ==>
        && |r.value| == 9
        && (forall k :: k in {2, 3, 4, 6, 8} ==>
              r.value[k].accessPlans == [("|A|", AccessSpec(b.metric.accessPlan, AccessFilters([b.comparisonFilter, Some(b.notInstanceFilter)], Some("and"))))])
        && r.value[2].slotFillers == AggregateFillers("min")
        && r.value[3].slotFillers == AggregateFillers("max")
        && r.value[4].slotFillers == AggregateFillers("median")
        && r.value[6].slotFillers == AggregateFillers("average")
        && r.value[8].slotFillers == AggregateFillers("stddev")
  {
    SpecsAreDrafts(b);
    if PlanCompositionSpecs(b).Ok? {
      DraftAggregates(b, TargetRange(b.subject).value);
    }
  }

  lemma DraftComparisons(b: Benchmark, range: Json)
    ensures var d := AllDrafts(b, range);
      && |d| == 9
      && d[1].slotFillers == InstanceFillers(b) + [("Quantity:0", Float(b.target))]
      && (forall k :: k in {5, 7} ==> d[k].accessPlans == [("|A|", OthersInSet(b)), ("|B|", InComparisonSet(b, Some("and")))])
  {
    var d := AllDrafts(b, range);
    assert d == [InstanceMetricValue(b), ComparedToTarget(b, range), AggregatedMetric(b, "min"), AggregatedMetric(b, "max"),
      AggregatedMetric(b, "median"), ComparedToOthers(b, range, "median"), AggregatedMetric(b, "average"),
      ComparedToOthers(b, range, "average"), AggregatedMetric(b, "stddev")];
  }

  /**
   * The benchmark spec's quantity is the benchmark target; in the two
   * comparisons with the others, "|A|" excludes the instance while "|B|"
   * uses only the comparison set.
   */
  lemma ComparisonSpecs(b: Benchmark)
    ensures var r := PlanCompositionSpecs(b);
      r.Ok? ==>
        && |r.value| == 9
        && r.value[1].slotFillers == InstanceFillers(b) + [("Quantity:0", Float(b.target))]
        && (forall k :: k in {5, 7} ==>
              r.value[k].accessPlans == [("|A|", AccessSpec(b.metric.accessPlan, AccessFilters([b.comparisonFilter, Some(b.notInstanceFilter)], Some("and")))),
                                         ("|B|", AccessSpec(b.metric.accessPlan, AccessFilters([b.comparisonFilter], Some("and"))))])
  {
    SpecsAreDrafts(b);
    if PlanCompositionSpecs(b).Ok? {
      DraftComparisons(b, TargetRange(b.subject).value);
    }
  }

  lemma NamesByRange(higher: bool)
    ensures BenchmarkPlanNames(higher)[1] == "InstanceGreaterThanQuantity" <==> higher
    ensures BenchmarkPlanNames(higher)[5] == "InstanceGreaterThanAggregatedMetric" <==> higher
    ensures BenchmarkPlanNames(higher)[7] == BenchmarkPlanNames(higher)[5]
  {
  }

  /** The comparisons ask "greater than" exactly when the target range is "+inf". */
  lemma ComparisonDirection(b: Benchmark)
    ensures var r := PlanCompositionSpecs(b);
      r.Ok? ==>
        && |r.value| == 9
        && (r.value[1].planName == "InstanceGreaterThanQuantity" <==> TargetRange(b.subject) == Ok(JStr("+inf")))
        && (r.value[5].planName == "InstanceGreaterThanAggregatedMetric" <==> TargetRange(b.subject) == Ok(JStr("+inf")))
        && r.value[7].planName == r.value[5].planName
  {
    var r := PlanCompositionSpecs(b);
    if r.Ok? {
      var names := BenchmarkPlanNames(HigherIsBetter(TargetRange(b.subject).value));
      assert r.value[1].planName == names[1] && r.value[5].planName == names[5] && r.value[7].planName == names[7] by {
        PlanOrder(b);
      }
      NamesByRange(HigherIsBetter(TargetRange(b.subject).value));
    }
  }

  // ---------------------------------------------------------------------------
  // The prompt
  // ---------------------------------------------------------------------------

  const BetterBe := "It is better to be "
  const ThanTarget := " than the target benchmark value."
  const BetterHigher := BetterBe + "higher" + ThanTarget
  const BetterLower := BetterBe + "lower" + ThanTarget

  /**
   * `build_baseline_prompt`: what the report is about, the filter
   * statement when there is one, the target, and which side of it is
   * better. `targetText` is the target as Python prints it.
   */
  function BaselinePrompt(b: Benchmark, reference: string, filterStatement: string, targetText: string): (r: string)
    ensures StartsWith(r, "Generate a report for " + reference)
    ensures EndsWith(r, if b.subject.preferenceDirection == "+inf" then BetterHigher else BetterLower)
  {
    var p := "Generate a report for " + reference;
    var head := p + (" comparing it to the target benchmark for " + PyStr(b.metric.nicename)
      + (if filterStatement != "" then " " + filterStatement else "") + ". "
      + "The target benchmark value is " + targetText + ". ");
    var tail := if b.subject.preferenceDirection == "+inf" then BetterHigher else BetterLower;
    StartsWithExtend(p, p, head[|p|..]);
    assert p + head[|p|..] == head;
    StartsWithExtend(head, p, tail);
    EndsWithAppended(head, tail);
    head + tail
  }

  /** No text ends with both closing sentences: aligned at their ends, "higher" and "lower" differ. */
  lemma EndingsDiffer(r: string)
    ensures !(EndsWith(r, BetterHigher) && EndsWith(r, BetterLower))
  {
    var u := BetterBe + "higher";
    var v := BetterBe + "lower";
    assert u[|u| - 5] == "higher"[1] && v[|v| - 5] == "lower"[0];
    SuffixesClash(r, u, v, ThanTarget, 5);
  }

  /** The prompt says higher values are better exactly when the preference direction is "+inf". */
  lemma PromptDirection(b: Benchmark, reference: string, filterStatement: string, targetText: string)
    ensures EndsWith(BaselinePrompt(b, reference, filterStatement, targetText), BetterHigher) <==> b.subject.preferenceDirection == "+inf"
  {
    EndingsDiffer(BaselinePrompt(b, reference, filterStatement, targetText));
  }
}
