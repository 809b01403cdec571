/**
 * `core/Planning/AnalysisPlanParser.py`, last part: `determine_subplans`,
 * which splits the plan from its first leaf and drops subplans equal to
 * one already kept, and the `parse` entry points that chain the parser
 * together into an `AnalysisPlan`.
 */
module PlanSubplans {

  import opened Wrappers
  import opened Dicts
  import opened Ontology
  import opened Steps
  import opened PlanParser
  import opened PlanSplit

  // ---------------------------------------------------------------------------
  // Equal subplans
  // ---------------------------------------------------------------------------

  /**
   * `v == p` for two subplan dictionaries, compared the way Python compares
   * dicts: the same size, and every key of `v` a key of `p` whose step is
   * equal (by `AnalysisStep.__eq__`) to the one `v` holds.
   */
  predicate SubplanEq(v: Plan, p: Plan)
  {
    |v| == |p| && forall i :: 0 <= i < |v| ==> Get(p, v[i].0).Some? && StepEq(v[i].1, Get(p, v[i].0).value)
  }

  /** `p in kept.values()`: some kept subplan compares equal to `p`. */
  predicate Among(p: Plan, kept: Dict<Plan>)
  {
    exists j :: 0 <= j < |kept| && SubplanEq(kept[j].1, p)
  }

  /** A subplan is equal to itself. */
  lemma SubplanEqRefl(p: Plan)
    requires DistinctKeys(p)
    ensures SubplanEq(p, p)
  {
    forall i | 0 <= i < |p| ensures Get(p, p[i].0) == Some(p[i].1) {
      GetAt(p, i);
    }
  }

  /** Equal subplans hold the same keys, with equal steps under each. */
  lemma SubplanEqKeys(v: Plan, p: Plan, k: string)
    requires DistinctKeys(v) && DistinctKeys(p) && SubplanEq(v, p) && HasKey(p, k)
    ensures Get(v, k).Some? && StepEq(Get(v, k).value, Get(p, k).value)
  {
    SameKeys(v, p);
    var j :| 0 <= j < |p| && p[j].0 == k;
    assert HasKey(v, p[j].0);
    var i :| 0 <= i < |v| && v[i].0 == k;
    GetAt(v, i);
  }

  // ---------------------------------------------------------------------------
  // Deduplication
  // ---------------------------------------------------------------------------

  /**
   * The dictionary the deduplication loop of `determine_subplans` builds:
   * each subplan, in order, is stored under its alias unless an equal one
   * is stored already.
   */
  function KeepFirst(d: Dict<Plan>): Dict<Plan>
    decreases |d|
  {
    if d == [] then []
    else
      var kept := KeepFirst(d[..|d| - 1]);
      if Among(d[|d| - 1].1, kept) then kept else Put(kept, d[|d| - 1].0, d[|d| - 1].1)
  }

  lemma KeepFirstStep(d: Dict<Plan>, i: nat)
    requires i < |d|
    ensures KeepFirst(d[..i + 1]) ==
      if Among(d[i].1, KeepFirst(d[..i])) then KeepFirst(d[..i]) else Put(KeepFirst(d[..i]), d[i].0, d[i].1)
  {
    assert d[..i + 1][..i] == d[..i];
  }

  /** The deduplication loop. */
  method Dedupe(d: Dict<Plan>) returns (r: Dict<Plan>)
    ensures r == KeepFirst(d)
  {
    r := [];
    for i := 0 to |d|
      invariant r == KeepFirst(d[..i])
    {
      KeepFirstStep(d, i);
      if !Among(d[i].1, r) {
        r := Put(r, d[i].0, d[i].1);
      }
    }
    assert d[..|d|] == d;
  }

  /** Every kept item is an item of the input: no alias is renamed and no subplan altered. */
  lemma {:induction false} KeptFromInput(d: Dict<Plan>)
    ensures forall x :: x in KeepFirst(d) ==> x in d
    decreases |d|
  {
    if d != [] {
      var front := d[..|d| - 1];
      KeptFromInput(front);
      PutItems(KeepFirst(front), d[|d| - 1].0, d[|d| - 1].1);
      forall x | x in front ensures x in d {
        var i :| 0 <= i < |front| && front[i] == x;
        assert d[i] == x;
      }
    }
  }

  lemma FrontDistinct<V>(d: Dict<V>)
    requires DistinctKeys(d) && d != []
    ensures DistinctKeys(d[..|d| - 1])
    ensures !HasKey(d[..|d| - 1], d[|d| - 1].0)
  {
  }

  /** With distinct aliases a subplan that is kept is appended at the end. */
  lemma KeepAppends(d: Dict<Plan>)
    requires DistinctKeys(d) && d != []
    ensures !HasKey(KeepFirst(d[..|d| - 1]), d[|d| - 1].0)
  {
    var front := d[..|d| - 1];
    FrontDistinct(d);
    KeptFromInput(front);
    var kept := KeepFirst(front);
    forall i | 0 <= i < |kept| ensures kept[i].0 != d[|d| - 1].0 {
      assert kept[i] in front;
      var j :| 0 <= j < |front| && front[j] == kept[i];
      assert d[j] == front[j];
    }
  }

  /** No kept subplan compares equal to one kept before it. */
  lemma {:induction false} KeptDistinct(d: Dict<Plan>)
    requires DistinctKeys(d)
    ensures forall i, j :: 0 <= i < j < |KeepFirst(d)| ==> !SubplanEq(KeepFirst(d)[i].1, KeepFirst(d)[j].1)
    decreases |d|
  {
    if d != [] {
      var front := d[..|d| - 1];
      FrontDistinct(d);
      KeptDistinct(front);
      KeepAppends(d);
    }
  }

  /** Every subplan of the input is kept or compares equal to one kept. */
  lemma {:induction false} KeptCovers(d: Dict<Plan>)
    requires DistinctKeys(d) && forall i :: 0 <= i < |d| ==> DistinctKeys(d[i].1)
    ensures forall i :: 0 <= i < |d| ==> Among(d[i].1, KeepFirst(d))
    decreases |d|
  {
    if d != [] {
      var front := d[..|d| - 1];
      var last := d[|d| - 1];
      FrontDistinct(d);
      KeptCovers(front);
      KeepAppends(d);
      var kept := KeepFirst(front);
      forall i | 0 <= i < |d| ensures Among(d[i].1, KeepFirst(d)) {
        if i < |d| - 1 {
          assert front[i] == d[i];
          assert Among(front[i].1, kept);
          var j :| 0 <= j < |kept| && SubplanEq(kept[j].1, d[i].1);
          assert KeepFirst(d)[j] == kept[j];
        } else if !Among(last.1, kept) {
          SubplanEqRefl(last.1);
          assert KeepFirst(d)[|kept|] == last;
        }
      }
    }
  }

  /** `x` is an item of `d` at index `m` or later. */
  predicate ItemFrom(x: (string, Plan), d: Dict<Plan>, m: nat)
  {
    exists j :: m <= j < |d| && d[j] == x
  }

  /** The kept dictionary grows by at most the last item. */
  lemma KeepLast(d: Dict<Plan>)
    requires DistinctKeys(d) && d != []
    ensures KeepFirst(d) == KeepFirst(d[..|d| - 1])
         || KeepFirst(d) == KeepFirst(d[..|d| - 1]) + [d[|d| - 1]]
  {
    KeepAppends(d);
  }

  /**
   * The kept dictionary of a prefix of the input begins the kept dictionary
   * of the whole input, which continues with items of the rest only.
   */
  lemma {:induction false} KeptExtends(d: Dict<Plan>, m: nat)
    requires DistinctKeys(d) && m <= |d|
    ensures |KeepFirst(d[..m])| <= |KeepFirst(d)|
    ensures KeepFirst(d)[..|KeepFirst(d[..m])|] == KeepFirst(d[..m])
    ensures forall i :: |KeepFirst(d[..m])| <= i < |KeepFirst(d)| ==> ItemFrom(KeepFirst(d)[i], d, m)
    decreases |d|
  {
    if m == |d| {
      assert d[..m] == d;
    } else {
      var front := d[..|d| - 1];
      FrontDistinct(d);
      KeptExtends(front, m);
      assert front[..m] == d[..m];
      KeepLast(d);
      var km, k0, k1 := KeepFirst(d[..m]), KeepFirst(front), KeepFirst(d);
      forall i | |km| <= i < |k1| ensures ItemFrom(k1[i], d, m) {
        if i < |k0| {
          assert k1[i] == k0[i];
          assert ItemFrom(k0[i], front, m);
          var j :| m <= j < |front| && front[j] == k0[i];
          assert d[j] == front[j];
        } else {
          assert k1[i] == d[|d| - 1];
        }
      }
      PrefixOfPrefix(km, k0, k1);
    }
  }

  lemma PrefixOfPrefix<T>(a: seq<T>, b: seq<T>, c: seq<T>)
    requires |a| <= |b| && b[..|a|] == a
    requires c == b || (|c| == |b| + 1 && c[..|b|] == b)
    ensures |a| <= |c| && c[..|a|] == a
  {
    if c != b {
      assert c[..|a|] == c[..|b|][..|a|];
    }
  }

  /**
   * A subplan is kept exactly when no subplan kept before it compares
   * equal to it: the first alias of equal subplans survives.
   */
  lemma KeptIff(d: Dict<Plan>, k: nat)
    requires DistinctKeys(d) && k < |d|
    ensures d[k] in KeepFirst(d) <==> !Among(d[k].1, KeepFirst(d[..k]))
  {
    KeptExtends(d, k + 1);
    KeepFirstStep(d, k);
    var kk, k1, all := KeepFirst(d[..k]), KeepFirst(d[..k + 1]), KeepFirst(d);
    assert d[..k + 1][..k] == d[..k];
    KeepAppends(d[..k + 1]);
    if !Among(d[k].1, kk) {
      assert k1 == kk + [d[k]];
      assert all[|kk|] == k1[|kk|];
    } else {
      KeptFromInput(d[..k]);
      forall i | 0 <= i < |all| ensures all[i].0 != d[k].0 {
        if i < |k1| {
          assert all[i] == k1[i] && k1[i] in d[..k];
          var j :| 0 <= j < k && d[..k][j] == k1[i];
          assert d[j] == k1[i];
        } else {
          assert ItemFrom(all[i], d, k + 1);
        }
      }
    }
  }

  // ---------------------------------------------------------------------------
  // determine_subplans
  // ---------------------------------------------------------------------------

  /** Some kept subplan holds, under `p`'s reference, a step equal to `p`. */
  predicate Represented(kept: Dict<Plan>, p: Step)
  {
    exists k :: 0 <= k < |kept| && Get(kept[k].1, p.ref).Some? && StepEq(Get(kept[k].1, p.ref).value, p)
  }

  /**
   * The subplans `determine_subplans` returns: alias-keyed valid subplans,
   * none equal to one before it, and (in a plan whose keys are the steps'
   * references) every return step a subplan depends on represented by a
   * subplan of its own.
   */
  ghost predicate Subplans(kept: Dict<Plan>, all: Plan)
  {
    (forall k :: 0 <= k < |kept| ==> IsArgAlias(kept[k].0) && ValidSubplan(kept[k].1, all))
    && (forall i, j :: 0 <= i < j < |kept| ==> !SubplanEq(kept[i].1, kept[j].1))
    && (WellKeyed(all) ==> forall k :: 0 <= k < |kept| ==> DependenciesKept(kept, k, all))
  }

  /** Every return step other than its root that subplan `k` depends on is represented. */
  ghost predicate DependenciesKept(kept: Dict<Plan>, k: int, all: Plan)
  {
    0 <= k < |kept| && |kept[k].1| > 0
    && forall i, p :: 0 <= i < |kept[k].1| && ParentOf(p, kept[k].1[i].1, all) && ReturnStep(p) && p != kept[k].1[0].1 ==>
      Represented(kept, p)
  }

  /** `determine_subplans`: split from the first leaf, then drop repeated subplans. */
  method DetermineSubplans(steps: Plan, g: Graph) returns (r: Result<Dict<Plan>>)
    ensures GetLeaves(g) == [] ==> r == Err(IndexError)
    ensures GetLeaves(g) != [] && !HasKey(steps, GetLeaves(g)[0]) ==> r == Err(KeyError(GetLeaves(g)[0]))
    ensures r.Ok? ==> (GetLeaves(g) != [] && Get(steps, GetLeaves(g)[0]).Some?
      && ReturnStep(Get(steps, GetLeaves(g)[0]).value) && Represented(r.value, Get(steps, GetLeaves(g)[0]).value))
    ensures r.Ok? ==> Subplans(r.value, steps)
    ensures r.Err? ==>
      (GetLeaves(g) == [] && r.error == IndexError) || (r.error.KeyError? && !HasKey(steps, r.error.key))
      || r.error == RecursionError || r.error == Exception(NoReturn)
    ensures r == Err(RecursionError) ==>
      GetLeaves(g) != [] && Get(steps, GetLeaves(g)[0]).Some? && ReturnCycle(Get(steps, GetLeaves(g)[0]).value, steps)
    ensures (GetLeaves(g) != [] && Get(steps, GetLeaves(g)[0]).Some? && IsReturn(Get(steps, GetLeaves(g)[0]).value.operation)
             && ParentsPresent(steps) && Acyclic(steps)) ==> r.Ok?
  {
    var leaves := GetLeaves(g);
    if leaves == [] {
      return Err(IndexError);
    }
    var leaf := Get(steps, leaves[0]);
    if leaf.None? {
      return Err(KeyError(leaves[0]));
    }
    var split := SplitOnReturns(leaf.value, steps, [], 0, {});
    if split.Err? {
      return Err(split.error);
    }
    var kept := Dedupe(split.value.0);
    DedupedSubplans(split.value.0, leaf.value, steps);
    return Ok(kept);
  }

  /** What deduplicating the output of `split_on_returns` keeps. */
  lemma DedupedSubplans(out: Dict<Plan>, leaf: Step, all: Plan)
    requires Extends(out, [], leaf, all)
    ensures Subplans(KeepFirst(out), all)
    ensures ReturnStep(leaf) && Represented(KeepFirst(out), leaf)
  {
    var kept := KeepFirst(out);
    OutputDistinct(out, all);
    KeptDistinct(out);
    KeptValid(out, all);
    var last := |out| - 1;
    assert EntryOk(out, last, 0, all);
    RootRepresented(out, last);
    if WellKeyed(all) {
      KeptAllDependencies(out, all);
    }
  }

  lemma KeptAllDependencies(out: Dict<Plan>, all: Plan)
    requires AliasKeyed(out) && BlockOk(out, 0, all) && WellKeyed(all)
    ensures forall k :: 0 <= k < |KeepFirst(out)| ==> DependenciesKept(KeepFirst(out), k, all)
  {
    var kept := KeepFirst(out);
    KeptFromInput(out);
    forall k | 0 <= k < |kept| ensures DependenciesKept(kept, k, all) {
      assert kept[k] in out;
      var m :| 0 <= m < |out| && out[m] == kept[k];
      KeptDependencies(out, m, k, all);
    }
  }

  lemma KeptValid(out: Dict<Plan>, all: Plan)
    requires AliasKeyed(out) && BlockOk(out, 0, all)
    ensures forall k :: 0 <= k < |KeepFirst(out)| ==> IsArgAlias(KeepFirst(out)[k].0) && ValidSubplan(KeepFirst(out)[k].1, all)
  {
    var kept := KeepFirst(out);
    KeptFromInput(out);
    forall k | 0 <= k < |kept| ensures IsArgAlias(kept[k].0) && ValidSubplan(kept[k].1, all) {
      assert kept[k] in out;
      var j :| 0 <= j < |out| && out[j] == kept[k];
      AliasNames(j, j);
      assert EntryOk(out, j, 0, all);
    }
  }

  /** The output of `split_on_returns` has distinct aliases and well-keyed subplans. */
  lemma OutputDistinct(out: Dict<Plan>, all: Plan)
    requires AliasKeyed(out) && BlockOk(out, 0, all)
    ensures DistinctKeys(out) && forall i :: 0 <= i < |out| ==> WellKeyed(out[i].1)
  {
    forall i, j | 0 <= i < j < |out| ensures out[i].0 != out[j].0 {
      AliasNames(i, j);
    }
    forall i | 0 <= i < |out| ensures WellKeyed(out[i].1) {
      assert EntryOk(out, i, 0, all);
    }
  }

  /** The root of a subplan of `out` is represented after deduplication. */
  lemma RootRepresented(out: Dict<Plan>, m: nat)
    requires DistinctKeys(out) && forall i :: 0 <= i < |out| ==> WellKeyed(out[i].1)
    requires m < |out| && |out[m].1| > 0
    ensures Represented(KeepFirst(out), out[m].1[0].1)
  {
    var kept := KeepFirst(out);
    var p := out[m].1[0].1;
    KeptCovers(out);
    KeptFromInput(out);
    var j :| 0 <= j < |kept| && SubplanEq(kept[j].1, out[m].1);
    assert kept[j] in out;
    GetAt(out[m].1, 0);
    SubplanEqKeys(kept[j].1, out[m].1, p.ref);
  }

  /** A return step a kept subplan depends on has a subplan of its own in `out`, and so is represented. */
  lemma KeptDependencies(out: Dict<Plan>, m: nat, k: nat, all: Plan)
    requires AliasKeyed(out) && BlockOk(out, 0, all) && WellKeyed(all)
    requires m < |out| && k < |KeepFirst(out)| && KeepFirst(out)[k] == out[m]
    ensures DependenciesKept(KeepFirst(out), k, all)
  {
    var kept := KeepFirst(out);
    OutputDistinct(out, all);
    assert EntryOk(out, m, 0, all);
    var d := out[m].1;
    forall i, p | 0 <= i < |d| && ParentOf(p, d[i].1, all) && ReturnStep(p) && p != d[0].1
      ensures Represented(kept, p)
    {
      assert Spawned(out, 0, p);
      var n :| 0 <= n < |out| && |out[n].1| > 0 && out[n].1[0].1 == p;
      forall q | 0 <= q < |out| ensures WellKeyed(out[q].1) {
        assert EntryOk(out, q, 0, all);
      }
      RootRepresented(out, n);
    }
  }

  // ---------------------------------------------------------------------------
  // The parse entry points
  // ---------------------------------------------------------------------------

  /** `parse_from_analysis_steps`: graph, then subplans, then the plan record. */
  method ParseFromAnalysisSteps(steps: Plan) returns (r: Result<AnalysisPlan>)
    requires DistinctKeys(steps)
    ensures (exists i :: 0 <= i < |steps| && GetParents(steps[i].1, steps).Err?) ==> r.Err?
    ensures r.Ok? ==> (r.value.steps == steps && r.value.graph.edges == PlanEdges(steps)
      && StepNodesFirst(r.value.graph.nodes, steps) && Subplans(r.value.subplans, steps))
    ensures r.Ok? ==> (GetLeaves(r.value.graph) != [] && Get(steps, GetLeaves(r.value.graph)[0]).Some?
      && Represented(r.value.subplans, Get(steps, GetLeaves(r.value.graph)[0]).value))
  {
    var g := CreatePlanGraph(steps);
    if g.Err? {
      return Err(g.error);
    }
    var subplans := DetermineSubplans(steps, g.value);
    if subplans.Err? {
      return Err(subplans.error);
    }
    return Ok(AnalysisPlan(steps, g.value, subplans.value));
  }

  /** `parse`: the step texts parsed, then the plan built from the steps. */
  method Parse(raw: Dict<string>) returns (r: Result<AnalysisPlan>)
    requires DistinctKeys(raw)
    ensures (exists i :: 0 <= i < |raw| && ParseStep(raw[i].0, raw[i].1).Err?) ==> r.Err?
    ensures r.Ok? ==> |r.value.steps| == |raw| && forall i :: 0 <= i < |raw| ==>
      r.value.steps[i] == (raw[i].0, ParseStep(raw[i].0, raw[i].1).value)
    ensures r.Ok? ==> (r.value.graph.nodes == Keys(raw) && r.value.graph.edges == PlanEdges(r.value.steps)
      && Subplans(r.value.subplans, r.value.steps))
  {
    var steps := CreateAnalysisSteps(raw);
    if steps.Err? {
      return Err(steps.error);
    }
    KeysKept(raw, steps.value);
    r := ParseFromAnalysisSteps(steps.value);
  }

  lemma KeysKept(raw: Dict<string>, steps: Plan)
    requires |steps| == |raw| && forall i :: 0 <= i < |raw| ==> steps[i].0 == raw[i].0
    ensures Keys(steps) == Keys(raw)
  {
  }

  /** `parse_plan_snippet`: the steps and the graph, with no subplans. */
  method ParsePlanSnippet(raw: Dict<string>) returns (r: Result<AnalysisPlan>)
    requires DistinctKeys(raw)
    ensures (exists i :: 0 <= i < |raw| && ParseStep(raw[i].0, raw[i].1).Err?) ==> r.Err?
    ensures r.Ok? ==> |r.value.steps| == |raw| && forall i :: 0 <= i < |raw| ==>
      r.value.steps[i] == (raw[i].0, ParseStep(raw[i].0, raw[i].1).value)
    ensures r.Ok? ==> (r.value.graph.nodes == Keys(raw) && r.value.graph.edges == PlanEdges(r.value.steps)
      && r.value.subplans == [])
    ensures r.Ok? ==> forall i :: 0 <= i < |raw| ==> GetParents(r.value.steps[i].1, r.value.steps).Ok?
  {
    var steps := CreateAnalysisSteps(raw);
    if steps.Err? {
      return Err(steps.error);
    }
    var g := CreatePlanGraph(steps.value);
    if g.Err? {
      return Err(g.error);
    }
    KeysKept(raw, steps.value);
    return Ok(AnalysisPlan(steps.value, g.value, []));
  }
}
