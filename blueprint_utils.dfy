/**
 * `core/Document/Blueprints/utils.py`: the name under which a blueprint
 * looks up an aggregated metric attribute.
 */
module BlueprintUtils {

  import opened Text

  /**
   * `build_metric_name(aggregation, entity, attribute)`: the attribute
   * name itself when there is no aggregation (None or ""), else
   * "aggregation_entity_attribute".
   */
  function BuildMetricName(aggregation: string, entity: string, attribute: string): (r: string)
    ensures EndsWith(r, attribute)
  {
    if aggregation == "" then attribute else aggregation + "_" + entity + "_" + attribute
  }

  /**
   * When neither the aggregation nor the entity holds an underscore, the
   * name of an aggregated attribute gives all three parts back: two
   * metric names are equal only when they are built from the same parts.
   */
  lemma {:induction false} BuildMetricNameInjective(a1: string, e1: string, x1: string, a2: string, e2: string, x2: string)
    requires a1 != "" && a2 != ""
    requires '_' !in a1 && '_' !in e1 && '_' !in a2 && '_' !in e2
    requires BuildMetricName(a1, e1, x1) == BuildMetricName(a2, e2, x2)
    ensures a1 == a2 && e1 == e2 && x1 == x2
  {
    assert BuildMetricName(a1, e1, x1) == a1 + "_" + (e1 + "_" + x1);
    assert BuildMetricName(a2, e2, x2) == a2 + "_" + (e2 + "_" + x2);
    UnderscoreSplit(a1, e1 + "_" + x1, a2, e2 + "_" + x2);
    UnderscoreSplit(e1, x1, e2, x2);
  }

  /** Splitting at the first underscore is unique: `a + "_" + b` determines `a` and `b`. */
  lemma UnderscoreSplit(a: string, b: string, a': string, b': string)
    requires '_' !in a && '_' !in a'
    requires a + "_" + b == a' + "_" + b'
    ensures a == a' && b == b'
  {
    var s := a + "_" + b;
    FirstUnderscore(a, b);
    FirstUnderscore(a', b');
    assert a == s[..|a|] == a';
    assert b == s[|a| + 1..] == b';
  }

  /** In `a + "_" + b` with no underscore in `a`, the first underscore is the one after `a`. */
  lemma FirstUnderscore(a: string, b: string)
    requires '_' !in a
    ensures var s := a + "_" + b; |a| < |s| && s[|a|] == '_' && (forall k :: 0 <= k < |a| ==> s[k] != '_')
  {
    var s := a + "_" + b;
    forall k | 0 <= k < |a| ensures s[k] != '_' {
      assert s[k] == a[k];
    }
  }
}
