/**
 * `core/Planning/SQRComposer.py`: composing plan fragments. Filter plans
 * and access plans are copied with their step references renamed by a
 * letter (`|1|` becomes `|1A|`), merged into one dictionary, and the
 * slots of a base plan are pointed at the steps of an access plan that
 * can fill them.
 */
module SqrComposer {

  import opened Wrappers
  import opened Dicts
  import opened Text
  import opened Json
  import opened ArgTypes
  import opened OpNames
  import opened Ontology
  import opened Operations
  import opened ApiUtils
  import opened Steps
  import opened RingAttributes
  import opened RingEntities
  import opened Rings
  import opened TemplateSlots

  // ---------------------------------------------------------------------------
  // get_next_ref_letter
  // ---------------------------------------------------------------------------

  const Alphabet: string := "ABCDEFGHIJKLMNOPQRSTUVWXYZ"

  /** `c * n`. */
  function Repeat(c: char, n: nat): (r: string)
    ensures |r| == n && forall k :: 0 <= k < n ==> r[k] == c
  {
    if n == 0 then [] else [c] + Repeat(c, n - 1)
  }

  /** The k-th capital letter, `string.ascii_uppercase[k]`. */
  function Capital(k: nat): char
    requires k < 26
  {
    ('A' as int + k) as char
  }

  /** The alphabet lists the 26 capitals in order. */
  lemma AlphabetIsCapitals()
    ensures |Alphabet| == 26 && forall k :: 0 <= k < 26 ==> Alphabet[k] == Capital(k)
  {
  }

  /** The letters returned by the n-th call (counting from 0): A..Z, then AA..ZZ, then AAA.. */
  function LetterAt(n: nat): (r: string)
    ensures |r| == n / 26 + 1
  {
    Repeat(Capital(n % 26), n / 26 + 1)
  }

  /** The letter generator never returns the same reference letters twice. */
  lemma LetterAtInjective(m: nat, n: nat)
    requires LetterAt(m) == LetterAt(n)
    ensures m == n
  {
    assert m / 26 == n / 26;
    assert LetterAt(m)[0] == Capital(m % 26) && LetterAt(n)[0] == Capital(n % 26);
  }

  /** The first letters: A, ..., Z, then AA, ..., ZZ, then AAA. */
  lemma LettersInOrder()
    ensures LetterAt(0) == "A" && LetterAt(1) == "B" && LetterAt(25) == "Z"
    ensures LetterAt(26) == "AA" && LetterAt(51) == "ZZ" && LetterAt(52) == "AAA"
  {
  }

  /** A plan whose steps the composer changes in place (`compose_access_plan_and_base_plan`). */
  class PlanRecord {
    var steps: Plan

    constructor (p: Plan)
      ensures steps == p
    {
      steps := p;
    }
  }

  // ---------------------------------------------------------------------------
  // append_to_plan_refs
  // ---------------------------------------------------------------------------

  /** `ref[0:-1] + addition + ref[-1]`: the addition goes before the last character. */
  function RenameKey(k: string, addition: string): (r: string)
    requires k != ""
    ensures |r| == |k| + |addition|
  {
    k[..|k| - 1] + addition + [k[|k| - 1]]
  }

  lemma RenameKeyExample()
    ensures RenameKey("|1|", "A") == "|1A|"
    ensures RenameKey("|12|", "AA") == "|12AA|"
  {
  }

  /** Renaming with one addition sends different references to different ones. */
  lemma RenameKeyInjective(k1: string, k2: string, addition: string)
    requires k1 != "" && k2 != "" && RenameKey(k1, addition) == RenameKey(k2, addition)
    ensures k1 == k2
  {
    var r := RenameKey(k1, addition);
    assert |k1| == |k2|;
    assert k1[..|k1| - 1] == r[..|k1| - 1] == k2[..|k2| - 1];
    assert k1[|k1| - 1] == r[|r| - 1] == k2[|k2| - 1];
    assert k1 == k1[..|k1| - 1] + [k1[|k1| - 1]];
    assert k2 == k2[..|k2| - 1] + [k2[|k2| - 1]];
  }

  predicate NonEmptyKeys(p: Plan)
  {
    forall i :: 0 <= i < |p| ==> p[i].0 != ""
  }

  /** A reference text always has at least three characters. */
  lemma ReferenceNonEmpty(s: string)
    requires IsArgReference(s)
    ensures |s| >= 3
  {
  }

  /** `ref_map[arg]` for a reference argument, the argument itself otherwise. */
  function RenameArg(arg: string, keys: seq<string>, addition: string): (r: Result<string>)
  {
    if !IsArgReference(arg) then Ok(arg)
    else if arg in keys then
      ReferenceNonEmpty(arg);
      Ok(RenameKey(arg, addition))
    else Err(KeyError(arg))
  }

  /** The arguments renamed one by one; the first reference that is not a key raises KeyError. */
  function RenameArgs(args: seq<string>, keys: seq<string>, addition: string): (r: Result<seq<string>>)
    ensures r.Ok? ==> |r.value| == |args|
    decreases |args|
  {
    if args == [] then Ok([])
    else
      var front :- RenameArgs(args[..|args| - 1], keys, addition);
      var last :- RenameArg(args[|args| - 1], keys, addition);
      Ok(front + [last])
  }

  /** The steps renamed one by one: new key, new `ref`, arguments renamed. */
  function RenameSteps(steps: Plan, keys: seq<string>, addition: string): (r: Result<Plan>)
    requires NonEmptyKeys(steps)
    ensures r.Ok? ==> |r.value| == |steps|
    decreases |steps|
  {
    if steps == [] then Ok([])
    else
      var front :- RenameSteps(steps[..|steps| - 1], keys, addition);
      var (k, step) := steps[|steps| - 1];
      var args :- RenameArgs(step.args, keys, addition);
      var k' := RenameKey(k, addition);
      Ok(front + [(k', Step(k', step.operation, args))])
  }

  /**
   * `append_to_plan_refs(plan, addition)`: a renamed copy of the plan; an
   * empty key raises IndexError at `original_ref[-1]`.
   */
  function RenamedPlan(plan: Plan, addition: string): (r: Result<Plan>)
  {
    if !NonEmptyKeys(plan) then Err(IndexError) else RenameSteps(plan, Keys(plan), addition)
  }

  /** Each argument renamed: references to their new keys, any other argument unchanged. */
  lemma {:induction false} RenameArgsAt(args: seq<string>, keys: seq<string>, addition: string, j: nat)
    requires RenameArgs(args, keys, addition).Ok? && j < |args|
    ensures RenameArg(args[j], keys, addition).Ok?
    ensures RenameArgs(args, keys, addition).value[j] == RenameArg(args[j], keys, addition).value
    decreases |args|
  {
    if j < |args| - 1 {
      RenameArgsAt(args[..|args| - 1], keys, addition, j);
    }
  }

  /** The arguments rename without error exactly when every reference among them is a key. */
  lemma {:induction false} RenameArgsOk(args: seq<string>, keys: seq<string>, addition: string)
    ensures RenameArgs(args, keys, addition).Ok? <==> forall j :: 0 <= j < |args| && IsArgReference(args[j]) ==> args[j] in keys
    decreases |args|
  {
    if args != [] {
      var front := args[..|args| - 1];
      RenameArgsOk(front, keys, addition);
      assert forall j :: 0 <= j < |front| ==> front[j] == args[j];
    }
  }

  /** Each step renamed: its key, `ref`, operation and arguments. */
  lemma {:induction false} RenameStepsAt(steps: Plan, keys: seq<string>, addition: string, i: nat)
    requires NonEmptyKeys(steps) && RenameSteps(steps, keys, addition).Ok? && i < |steps|
    ensures RenameArgs(steps[i].1.args, keys, addition).Ok?
    ensures var k' := RenameKey(steps[i].0, addition);
      RenameSteps(steps, keys, addition).value[i] ==
        (k', Step(k', steps[i].1.operation, RenameArgs(steps[i].1.args, keys, addition).value))
    decreases |steps|
  {
    if i < |steps| - 1 {
      RenameStepsAt(steps[..|steps| - 1], keys, addition, i);
    }
  }

  /** The steps rename without error exactly when every step's arguments do. */
  lemma {:induction false} RenameStepsOk(steps: Plan, keys: seq<string>, addition: string)
    requires NonEmptyKeys(steps)
    ensures RenameSteps(steps, keys, addition).Ok? <==> forall i :: 0 <= i < |steps| ==> RenameArgs(steps[i].1.args, keys, addition).Ok?
    decreases |steps|
  {
    if steps != [] {
      var front := steps[..|steps| - 1];
      RenameStepsOk(front, keys, addition);
      assert forall i :: 0 <= i < |front| ==> front[i] == steps[i];
    }
  }

  /**
   * `append_to_plan_refs` succeeds exactly when no key is empty and every
   * reference argument is a key of the plan. The copy then has each key
   * renamed, in the same order, with each step's `ref` set to its new key,
   * its operation kept, each reference argument renamed like the key it
   * names and every other argument unchanged.
   */
  lemma RenamedPlanMeaning(plan: Plan, addition: string, i: nat, j: nat)
    requires i < |plan| && j < |plan[i].1.args|
    ensures RenamedPlan(plan, addition).Ok? <==>
      NonEmptyKeys(plan) && forall m, n :: 0 <= m < |plan| && 0 <= n < |plan[m].1.args| && IsArgReference(plan[m].1.args[n]) ==> plan[m].1.args[n] in Keys(plan)
    ensures RenamedPlan(plan, addition).Ok? ==>
      var r := RenamedPlan(plan, addition).value;
      var arg := plan[i].1.args[j];
      |r| == |plan| && r[i].0 == RenameKey(plan[i].0, addition) && r[i].1.ref == r[i].0 &&
      r[i].1.operation == plan[i].1.operation && |r[i].1.args| == |plan[i].1.args| &&
      r[i].1.args[j] == (if IsArgReference(arg) then RenameKey(arg, addition) else arg)
  {
    if NonEmptyKeys(plan) {
      var keys := Keys(plan);
      RenameStepsOk(plan, keys, addition);
      forall m | 0 <= m < |plan| ensures RenameArgs(plan[m].1.args, keys, addition).Ok? <==>
        forall n :: 0 <= n < |plan[m].1.args| && IsArgReference(plan[m].1.args[n]) ==> plan[m].1.args[n] in keys
      {
        RenameArgsOk(plan[m].1.args, keys, addition);
      }
      if RenamedPlan(plan, addition).Ok? {
        RenameStepsAt(plan, keys, addition, i);
        RenameArgsAt(plan[i].1.args, keys, addition, j);
      }
    }
  }

  /** The renamed copy of a dictionary is again a dictionary. */
  lemma RenamedPlanDistinct(plan: Plan, addition: string)
    requires DistinctKeys(plan) && RenamedPlan(plan, addition).Ok?
    ensures DistinctKeys(RenamedPlan(plan, addition).value)
    ensures forall i :: 0 <= i < |plan| ==> RenamedPlan(plan, addition).value[i].0 == RenameKey(plan[i].0, addition)
  {
    var r := RenamedPlan(plan, addition).value;
    forall i | 0 <= i < |plan| ensures r[i].0 == RenameKey(plan[i].0, addition) {
      RenameStepsAt(plan, Keys(plan), addition, i);
    }
    forall a, b | 0 <= a < b < |r| ensures r[a].0 != r[b].0 {
      if r[a].0 == r[b].0 {
        RenameKeyInjective(plan[a].0, plan[b].0, addition);
      }
    }
  }

  /** The renaming fails, or succeeds, whatever letters are added, and fails with the same error. */
  lemma {:induction false} RenamedPlanErrorIndependent(plan: Plan, a: string, b: string)
    ensures RenamedPlan(plan, a).Err? <==> RenamedPlan(plan, b).Err?
    ensures RenamedPlan(plan, a).Err? ==> RenamedPlan(plan, a).error == RenamedPlan(plan, b).error
  {
    if NonEmptyKeys(plan) {
      StepsErrorIndependent(plan, Keys(plan), a, b);
    }
  }

  lemma {:induction false} StepsErrorIndependent(steps: Plan, keys: seq<string>, a: string, b: string)
    requires NonEmptyKeys(steps)
    ensures RenameSteps(steps, keys, a).Err? <==> RenameSteps(steps, keys, b).Err?
    ensures RenameSteps(steps, keys, a).Err? ==> RenameSteps(steps, keys, a).error == RenameSteps(steps, keys, b).error
    decreases |steps|
  {
    if steps != [] {
      StepsErrorIndependent(steps[..|steps| - 1], keys, a, b);
      ArgsErrorIndependent(steps[|steps| - 1].1.args, keys, a, b);
    }
  }

  lemma {:induction false} ArgsErrorIndependent(args: seq<string>, keys: seq<string>, a: string, b: string)
    ensures RenameArgs(args, keys, a).Err? <==> RenameArgs(args, keys, b).Err?
    ensures RenameArgs(args, keys, a).Err? ==> RenameArgs(args, keys, a).error == RenameArgs(args, keys, b).error
    decreases |args|
  {
    if args != [] {
      ArgsErrorIndependent(args[..|args| - 1], keys, a, b);
    }
  }

  lemma ArgsPrefixError(args: seq<string>, keys: seq<string>, addition: string, j: nat)
    requires j < |args| && RenameArgs(args[..j], keys, addition).Ok? && RenameArg(args[j], keys, addition).Err?
    ensures RenameArgs(args, keys, addition) == Err(RenameArg(args[j], keys, addition).error)
  {
    ArgsErrorGrows(args, keys, addition, j + 1);
    assert args[..j + 1][..j] == args[..j];
  }

  lemma {:induction false} ArgsErrorGrows(args: seq<string>, keys: seq<string>, addition: string, j: nat)
    requires j <= |args| && RenameArgs(args[..j], keys, addition).Err?
    ensures RenameArgs(args, keys, addition) == RenameArgs(args[..j], keys, addition)
    decreases |args| - j
  {
    if j < |args| {
      assert args[..j + 1][..j] == args[..j];
      ArgsErrorGrows(args, keys, addition, j + 1);
    } else {
      assert args[..j] == args;
    }
  }

  lemma {:induction false} StepsErrorGrows(steps: Plan, keys: seq<string>, addition: string, i: nat)
    requires NonEmptyKeys(steps) && i <= |steps| && RenameSteps(steps[..i], keys, addition).Err?
    ensures RenameSteps(steps, keys, addition) == RenameSteps(steps[..i], keys, addition)
    decreases |steps| - i
  {
    if i < |steps| {
      assert steps[..i + 1][..i] == steps[..i];
      StepsErrorGrows(steps, keys, addition, i + 1);
    } else {
      assert steps[..i] == steps;
    }
  }

  /**
   * `append_to_plan_refs`: the key loop (IndexError on an empty key), then
   * each step copied under its new key with its arguments renamed in turn.
   */
  method AppendToPlanRefs(plan: Plan, addition: string) returns (r: Result<Plan>)
    ensures r == RenamedPlan(plan, addition)
  {
    var i := 0;
    while i < |plan|
      invariant i <= |plan|
      invariant forall k :: 0 <= k < i ==> plan[k].0 != ""
    {
      if plan[i].0 == "" {
        return Err(IndexError);
      }
      i := i + 1;
    }
    var keys := Keys(plan);
    var updated: Plan := [];
    i := 0;
    while i < |plan|
      invariant i <= |plan|
      invariant RenameSteps(plan[..i], keys, addition) == Ok(updated)
    {
      var step := plan[i].1;
      var args := RenameStepArgs(step.args, keys, addition);
      assert plan[..i + 1][..i] == plan[..i] && plan[..i + 1][i] == plan[i];
      if args.Err? {
        StepsErrorGrows(plan, keys, addition, i + 1);
        return Err(args.error);
      }
      var k' := RenameKey(plan[i].0, addition);
      updated := updated + [(k', Step(k', step.operation, args.value))];
      i := i + 1;
    }
    assert plan[..i] == plan;
    return Ok(updated);
  }

  /** The inner loop of `append_to_plan_refs`: one step's arguments, each reference mapped to its new key. */
  method RenameStepArgs(args: seq<string>, keys: seq<string>, addition: string) returns (r: Result<seq<string>>)
    ensures r == RenameArgs(args, keys, addition)
  {
    var renamed: seq<string> := [];
    var j := 0;
    while j < |args|
      invariant j <= |args|
      invariant RenameArgs(args[..j], keys, addition) == Ok(renamed)
    {
      var arg := args[j];
      if IsArgReference(arg) {
        if arg !in keys {
          ArgsPrefixError(args, keys, addition, j);
          return Err(KeyError(arg));
        }
        ReferenceNonEmpty(arg);
        renamed := renamed + [RenameKey(arg, addition)];
      } else {
        renamed := renamed + [arg];
      }
      assert args[..j + 1][..j] == args[..j];
      j := j + 1;
    }
    assert args[..j] == args;
    return Ok(renamed);
  }

  // ---------------------------------------------------------------------------
  // compose_filter_plans
  // ---------------------------------------------------------------------------

  /**
   * The renaming loop of `compose_filter_plans`: plan i gets the letters
   * of call n + i. The second component counts the letters drawn, which
   * includes the one drawn for a plan whose renaming fails.
   */
  function RenameEach(plans: seq<Plan>, n: nat): (r: (Result<seq<Plan>>, nat))
    ensures r.1 <= |plans|
    ensures r.0.Ok? ==> |r.0.value| == |plans| && r.1 == |plans|
    decreases |plans|
  {
    if plans == [] then (Ok([]), 0)
    else
      var (front, used) := RenameEach(plans[..|plans| - 1], n);
      if front.Err? then (front, used)
      else match RenamedPlan(plans[|plans| - 1], LetterAt(n + |plans| - 1))
        case Err(e) => (Err(e), |plans|)
        case Ok(p) => (Ok(front.value + [p]), |plans|)
  }

  /** `[list(plan_steps.keys())[-1] for plan_steps in plans]`: IndexError for an empty plan. */
  function LastKeys(plans: seq<Plan>): (r: Result<seq<string>>)
    ensures r.Ok? <==> forall i :: 0 <= i < |plans| ==> plans[i] != []
    ensures r.Ok? ==> (|r.value| == |plans| &&
      forall i :: 0 <= i < |plans| ==> r.value[i] == plans[i][|plans[i]| - 1].0)
    ensures r.Err? ==> r.error == IndexError
    decreases |plans|
  {
    if plans == [] then Ok([])
    else
      var last := plans[|plans| - 1];
      match LastKeys(plans[..|plans| - 1])
      case Err(e) => Err(e)
      case Ok(ks) => if last == [] then Err(IndexError) else Ok(ks + [last[|last| - 1].0])
  }

  /** The first plan updated with each of the others in turn. */
  function MergeAll(plans: seq<Plan>): Plan
    requires plans != []
    decreases |plans|
  {
    if |plans| == 1 then plans[0] else Update(MergeAll(plans[..|plans| - 1]), plans[|plans| - 1])
  }

  /** After the merge, every key of every merged plan is a key. */
  lemma {:induction false} MergeAllHasKey(plans: seq<Plan>, i: nat, k: string)
    requires i < |plans| && HasKey(plans[i], k)
    ensures HasKey(MergeAll(plans), k)
    decreases |plans|
  {
    if |plans| > 1 {
      var front := plans[..|plans| - 1];
      UpdateHasKey(MergeAll(front), plans[|plans| - 1], k);
      if i < |plans| - 1 {
        MergeAllHasKey(front, i, k);
      }
    }
  }

  /** `joiner_op or 'or'`. */
  function JoinerOp(joiner: string): string
  {
    if joiner == "" then "or" else joiner
  }

  /** `"|1" + letter + "|"`, the reference of the joining step. */
  function JoinerRef(letter: string): string
  {
    "|1" + letter + "|"
  }

  /**
   * `compose_filter_plans(filter_plans, joiner_op)` on a composer that has
   * handed out n letters: the result and the number of letters drawn.
   * No plan or one plan is returned as it is without drawing a letter.
   */
  function ComposeFilterPlansSpec(plans: seq<Plan>, joiner: string, n: nat): (r: (Result<Plan>, nat))
  {
    if |plans| == 0 then (Ok([]), 0)
    else if |plans| == 1 then (Ok(plans[0]), 0)
    else
      var (renamed, used) := RenameEach(plans, n);
      if renamed.Err? then (Err(renamed.error), used)
      else match LastKeys(renamed.value)
        case Err(e) => (Err(e), |plans|)
        case Ok(finals) =>
          var ref := JoinerRef(LetterAt(n + |plans|));
          (Ok(Put(MergeAll(renamed.value), ref, Step(ref, JoinerOp(joiner), finals))), |plans| + 1)
  }

  /** The three ways two or more filter plans compose: a renaming error, an empty plan, or the joined plan. */
  lemma ComposeFilterPlansCases(plans: seq<Plan>, joiner: string, n: nat)
    requires |plans| >= 2
    ensures var (renamed, used) := RenameEach(plans, n);
      var r := ComposeFilterPlansSpec(plans, joiner, n);
      (renamed.Err? ==> r == (Err(renamed.error), used)) &&
      (renamed.Ok? ==> (
        used == |plans| &&
        (LastKeys(renamed.value).Err? ==> r == (Err(LastKeys(renamed.value).error), |plans|)) &&
        (LastKeys(renamed.value).Ok? ==>
          var ref := JoinerRef(LetterAt(n + |plans|));
          r == (Ok(Put(MergeAll(renamed.value), ref, Step(ref, JoinerOp(joiner), LastKeys(renamed.value).value))), |plans| + 1))))
  {
  }

  /** The renaming loop succeeds exactly when each plan renames with the letters of its own call. */
  lemma RenameEachOk(plans: seq<Plan>, n: nat)
    ensures RenameEach(plans, n).0.Ok? <==> forall j :: 0 <= j < |plans| ==> RenamedPlan(plans[j], LetterAt(n + j)).Ok?
  {
    if RenameEach(plans, n).0.Ok? {
      forall j | 0 <= j < |plans| ensures RenamedPlan(plans[j], LetterAt(n + j)).Ok? {
        RenameEachAt(plans, n, j);
      }
    }
    if forall j :: 0 <= j < |plans| ==> RenamedPlan(plans[j], LetterAt(n + j)).Ok? {
      RenameEachAllOk(plans, n);
    }
  }

  /** When every plan renames, so does the loop. */
  lemma {:induction false} RenameEachAllOk(plans: seq<Plan>, n: nat)
    requires forall j :: 0 <= j < |plans| ==> RenamedPlan(plans[j], LetterAt(n + j)).Ok?
    ensures RenameEach(plans, n).0.Ok?
    decreases |plans|
  {
    if plans != [] {
      var k := |plans| - 1;
      var front := plans[..k];
      forall j | 0 <= j < k ensures RenamedPlan(front[j], LetterAt(n + j)).Ok? {
        assert front[j] == plans[j];
      }
      RenameEachAllOk(front, n);
      assert n + |plans| - 1 == n + k;
      assert RenamedPlan(plans[k], LetterAt(n + k)).Ok?;
    }
  }

  /** Each plan of a successful renaming loop is the renamed copy of the input plan. */
  lemma {:induction false} RenameEachAt(plans: seq<Plan>, n: nat, i: nat)
    requires i < |plans| && RenameEach(plans, n).0.Ok?
    ensures RenamedPlan(plans[i], LetterAt(n + i)) == Ok(RenameEach(plans, n).0.value[i])
    decreases |plans|
  {
    var front := plans[..|plans| - 1];
    if i < |front| {
      RenameEachAt(front, n, i);
      assert front[i] == plans[i];
    }
  }

  /** Every key of `keys` is a key of `d`. */
  predicate KeysIn(d: Plan, keys: Plan)
  {
    forall j :: 0 <= j < |keys| ==> HasKey(d, keys[j].0)
  }

  /** Two or more filter plans compose exactly when each renames without error and none is empty. */
  lemma ComposeFilterPlansOkIff(plans: seq<Plan>, joiner: string, n: nat)
    requires |plans| >= 2
    ensures ComposeFilterPlansSpec(plans, joiner, n).0.Ok? <==>
      forall i :: 0 <= i < |plans| ==> plans[i] != [] && RenamedPlan(plans[i], LetterAt(n + i)).Ok?
  {
    var (renamed, used) := RenameEach(plans, n);
    RenameEachOk(plans, n);
    if renamed.Ok? {
      forall i | 0 <= i < |plans| ensures RenamedPlan(plans[i], LetterAt(n + i)) == Ok(renamed.value[i]) {
        RenameEachAt(plans, n, i);
      }
    }
  }

  /**
   * The plan two or more filter plans compose into: each is renamed with
   * the letters of its own call, every renamed key is in the result, and
   * the joining step, named with the letters of the call after them,
   * applies the joiner (`or` by default) to the renamed last step of every
   * plan.
   */
  lemma ComposeFilterPlansJoined(plans: seq<Plan>, joiner: string, n: nat)
    requires |plans| >= 2 && ComposeFilterPlansSpec(plans, joiner, n).0.Ok?
    ensures forall i :: 0 <= i < |plans| ==> RenamedPlan(plans[i], LetterAt(n + i)).Ok? && RenamedPlan(plans[i], LetterAt(n + i)).value != []
    ensures var r := ComposeFilterPlansSpec(plans, joiner, n);
      var ref := JoinerRef(LetterAt(n + |plans|));
      r.1 == |plans| + 1 &&
      (forall i :: 0 <= i < |plans| ==> KeysIn(r.0.value, RenamedPlan(plans[i], LetterAt(n + i)).value)) &&
      Get(r.0.value, ref).Some? && Get(r.0.value, ref).value.ref == ref &&
      Get(r.0.value, ref).value.operation == JoinerOp(joiner) &&
      |Get(r.0.value, ref).value.args| == |plans| &&
      forall i :: 0 <= i < |plans| ==>
        var renamed := RenamedPlan(plans[i], LetterAt(n + i)).value;
        Get(r.0.value, ref).value.args[i] == renamed[|renamed| - 1].0
  {
    var (renamed, used) := RenameEach(plans, n);
    forall i | 0 <= i < |plans| ensures RenamedPlan(plans[i], LetterAt(n + i)) == Ok(renamed.value[i]) {
      RenameEachAt(plans, n, i);
    }
    var lasts := LastKeys(renamed.value);
    var ref := JoinerRef(LetterAt(n + |plans|));
    var merged := MergeAll(renamed.value);
    var step := Step(ref, JoinerOp(joiner), lasts.value);
    assert ComposeFilterPlansSpec(plans, joiner, n) == (Ok(Put(merged, ref, step)), |plans| + 1);
    PutGet(merged, ref, step, ref);
    forall i | 0 <= i < |plans| ensures KeysIn(Put(merged, ref, step), renamed.value[i]) {
      forall j | 0 <= j < |renamed.value[i]| ensures HasKey(Put(merged, ref, step), renamed.value[i][j].0) {
        MergeAllHasKey(renamed.value, i, renamed.value[i][j].0);
        PutGet(merged, ref, step, renamed.value[i][j].0);
      }
    }
  }

  /**
   * Two or more filter plans compose exactly when each renames without
   * error and none is empty; each is then renamed with the letters of its
   * own call, every renamed key is in the result, and the joining step,
   * named with the letters of the call after them, applies the joiner
   * (`or` by default) to the renamed last step of every plan.
   */
  lemma ComposeFilterPlansMeaning(plans: seq<Plan>, joiner: string, n: nat)
    requires |plans| >= 2
    ensures ComposeFilterPlansSpec(plans, joiner, n).0.Ok? <==>
      forall i :: 0 <= i < |plans| ==> plans[i] != [] && RenamedPlan(plans[i], LetterAt(n + i)).Ok?
    ensures ComposeFilterPlansSpec(plans, joiner, n).0.Ok? ==>
      var r := ComposeFilterPlansSpec(plans, joiner, n);
      var ref := JoinerRef(LetterAt(n + |plans|));
      r.1 == |plans| + 1 &&
      (forall i :: 0 <= i < |plans| ==> KeysIn(r.0.value, RenamedPlan(plans[i], LetterAt(n + i)).value)) &&
      Get(r.0.value, ref).Some? && Get(r.0.value, ref).value.ref == ref &&
      Get(r.0.value, ref).value.operation == JoinerOp(joiner) &&
      |Get(r.0.value, ref).value.args| == |plans| &&
      forall i :: 0 <= i < |plans| ==>
        var renamed := RenamedPlan(plans[i], LetterAt(n + i)).value;
        Get(r.0.value, ref).value.args[i] == renamed[|renamed| - 1].0
  {
    ComposeFilterPlansOkIff(plans, joiner, n);
    if ComposeFilterPlansSpec(plans, joiner, n).0.Ok? {
      ComposeFilterPlansJoined(plans, joiner, n);
    }
  }

  // ---------------------------------------------------------------------------
  // compose_filter_and_access_plan
  // ---------------------------------------------------------------------------

  /** `[ref for ref, step in plan.items() if step.operation == op]`, first match. */
  function FirstWithOperation(plan: Plan, op: string): (r: Option<string>)
    ensures r.Some? ==> HasKey(plan, r.value) && exists i :: 0 <= i < |plan| && plan[i].0 == r.value && plan[i].1.operation == op
    ensures r.None? <==> forall i :: 0 <= i < |plan| ==> plan[i].1.operation != op
    decreases |plan|
  {
    if plan == [] then None
    else if plan[0].1.operation == op then Some(plan[0].0)
    else
      var r := FirstWithOperation(plan[1..], op);
      assert forall i :: 0 < i < |plan| ==> plan[i] == plan[1..][i - 1];
      r
  }

  /** Step i is the last step of the plan with the operation. */
  predicate LastAt(plan: Plan, op: string, i: int)
  {
    0 <= i < |plan| && plan[i].1.operation == op && forall j :: i < j < |plan| ==> plan[j].1.operation != op
  }

  /** The key of the last step with the operation: what the loop `for step_ref, step in plan.items()` leaves behind. */
  function LastWithOperation(plan: Plan, op: string): (r: Option<string>)
    ensures r.Some? ==> exists i :: LastAt(plan, op, i) && plan[i].0 == r.value
    ensures r.None? <==> forall i :: 0 <= i < |plan| ==> plan[i].1.operation != op
    decreases |plan|
  {
    if plan == [] then None
    else
      var last := plan[|plan| - 1];
      if last.1.operation == op then Some(last.0)
      else
        var r := LastWithOperation(plan[..|plan| - 1], op);
        LastAtDrop(plan, op);
        r
  }

  /** A last step that lacks the operation changes neither where it last occurs nor whether it occurs. */
  lemma LastAtDrop(plan: Plan, op: string)
    requires plan != [] && plan[|plan| - 1].1.operation != op
    ensures forall i :: 0 <= i < |plan| - 1 ==> plan[..|plan| - 1][i] == plan[i]
    ensures forall i :: LastAt(plan[..|plan| - 1], op, i) ==> LastAt(plan, op, i)
  {
    assert forall i :: 0 <= i < |plan| - 1 ==> plan[..|plan| - 1][i] == plan[i];
  }

  /**
   * `compose_filter_and_access_plan(access_plan, access_plan_filter)` on a
   * composer that has handed out n letters: an empty filter gives the
   * access plan back without drawing a letter; otherwise the renamed
   * filter is merged into the access plan and its last reference appended
   * to the arguments of the access plan's first `return` step.
   */
  function ComposeFilterAndAccessPlanSpec(access: Plan, filter: Plan, n: nat): (r: (Result<Plan>, nat))
  {
    if filter == [] then (Ok(access), 0)
    else match RenamedPlan(filter, LetterAt(n))
      case Err(e) => (Err(e), 1)
      case Ok(renamed) =>
        var combined := Update(access, renamed);
        match FirstWithOperation(access, "return")
        case None => (Err(IndexError), 1)
        case Some(ret) =>
          UpdateHasKey(access, renamed, ret);
          var step := Get(combined, ret).value;
          (Ok(Put(combined, ret, Step(step.ref, step.operation, step.args + [renamed[|renamed| - 1].0]))), 1)
  }

  /** With the return step found, the composed plan is the merged plan with the access plan's return step extended. */
  lemma ComposeFilterAndAccessPlanShape(access: Plan, filter: Plan, n: nat)
    requires DistinctKeys(access) && DistinctKeys(filter) && filter != []
    requires RenamedPlan(filter, LetterAt(n)).Ok? && FirstWithOperation(access, "return").Some?
    requires !HasKey(RenamedPlan(filter, LetterAt(n)).value, FirstWithOperation(access, "return").value)
    ensures var renamed := RenamedPlan(filter, LetterAt(n)).value;
      var ret := FirstWithOperation(access, "return").value;
      var step := Get(access, ret).value;
      ComposeFilterAndAccessPlanSpec(access, filter, n) ==
        (Ok(Put(Update(access, renamed), ret, Step(step.ref, step.operation, step.args + [renamed[|renamed| - 1].0]))), 1)
  {
    var renamed := RenamedPlan(filter, LetterAt(n)).value;
    var ret := FirstWithOperation(access, "return").value;
    RenamedPlanDistinct(filter, LetterAt(n));
    UpdateGet(access, renamed, ret);
  }

  /**
   * A filter composed into a dictionary-shaped access plan with a `return`
   * step and no key clash: every access step and every renamed filter step
   * is in the result, the first return step gains the renamed last
   * reference of the filter as its new last argument, and every other step
   * is as it was.
   */
  lemma ComposeFilterAndAccessPlanMeaning(access: Plan, filter: Plan, n: nat, k: string)
    requires DistinctKeys(access) && DistinctKeys(filter) && filter != []
    requires RenamedPlan(filter, LetterAt(n)).Ok? && FirstWithOperation(access, "return").Some?
    requires forall i :: 0 <= i < |filter| ==> !HasKey(access, RenameKey(filter[i].0, LetterAt(n)))
    ensures ComposeFilterAndAccessPlanSpec(access, filter, n).0.Ok?
    ensures var r := ComposeFilterAndAccessPlanSpec(access, filter, n).0.value;
      var renamed := RenamedPlan(filter, LetterAt(n)).value;
      var ret := FirstWithOperation(access, "return").value;
      (HasKey(r, k) <==> HasKey(access, k) || HasKey(renamed, k)) &&
      (k == ret ==> Get(r, k) == Some(Step(Get(access, k).value.ref, "return",
         Get(access, k).value.args + [RenameKey(filter[|filter| - 1].0, LetterAt(n))]))) &&
      (k != ret ==> Get(r, k) == if HasKey(renamed, k) then Get(renamed, k) else Get(access, k))
  {
    var renamed := RenamedPlan(filter, LetterAt(n)).value;
    var ret := FirstWithOperation(access, "return").value;
    RenamedPlanDistinct(filter, LetterAt(n));
    assert !HasKey(renamed, ret);
    ComposeFilterAndAccessPlanShape(access, filter, n);
    var i :| 0 <= i < |access| && access[i].0 == ret && access[i].1.operation == "return";
    GetAt(access, i);
    var combined := Update(access, renamed);
    var step := Get(access, ret).value;
    var newStep := Step(step.ref, step.operation, step.args + [renamed[|renamed| - 1].0]);
    UpdateGet(access, renamed, k);
    UpdateHasKey(access, renamed, k);
    PutGet(combined, ret, newStep, k);
  }

  // ---------------------------------------------------------------------------
  // get_base_plan_slots
  // ---------------------------------------------------------------------------

  /**
   * A step the slot search collects: a `retrieve_attribute` step whose
   * entity argument is the access plan's input reference (and no key of
   * the plan) and whose attribute argument holds a `{...}` slot.
   */
  predicate Qualifies(plan: Plan, step: Step, inputRef: string)
  {
    step.operation == "retrieve_attribute" && |step.args| >= 2 &&
    !HasKey(plan, step.args[0]) && step.args[0] == inputRef && IsSlot(step.args[1])
  }

  /** A step on which the slot search raises IndexError: an argument it reads is missing. */
  predicate SlotSearchFails(plan: Plan, step: Step, inputRef: string)
  {
    step.operation == "retrieve_attribute" &&
    (|step.args| == 0 || (|step.args| == 1 && !HasKey(plan, step.args[0]) && step.args[0] == inputRef))
  }

  /** The slots of the first i steps of `plan`, each with the keys of the steps it appears in. */
  function SlotsUpTo(plan: Plan, inputRef: string, i: nat): (r: Result<Dict<seq<string>>>)
    requires i <= |plan|
  {
    if i == 0 then Ok([])
    else
      var front :- SlotsUpTo(plan, inputRef, i - 1);
      var (k, step) := plan[i - 1];
      if SlotSearchFails(plan, step, inputRef) then Err(IndexError)
      else if Qualifies(plan, step, inputRef) then Ok(Extend(front, step.args[1], [k]))
      else Ok(front)
  }

  /** `get_base_plan_slots(base_plan, access_plan_input_ref)`. */
  function BasePlanSlots(plan: Plan, inputRef: string): Result<Dict<seq<string>>>
  {
    SlotsUpTo(plan, inputRef, |plan|)
  }

  /** The keys, in plan order, of the qualifying steps among the first i whose slot is `slot`. */
  function StepsWithSlot(plan: Plan, inputRef: string, slot: string, i: nat): (r: seq<string>)
    requires i <= |plan|
  {
    if i == 0 then []
    else
      var front := StepsWithSlot(plan, inputRef, slot, i - 1);
      var (k, step) := plan[i - 1];
      if Qualifies(plan, step, inputRef) && step.args[1] == slot then front + [k] else front
  }

  /**
   * The slot search fails exactly when some `retrieve_attribute` step lacks
   * an argument it reads. Otherwise each slot lists, in plan order, the
   * keys of the qualifying steps that hold it, and a string that is no
   * qualifying step's slot is not a key.
   */
  lemma SlotsUpToMeaning(plan: Plan, inputRef: string, i: nat, slot: string)
    requires i <= |plan|
    ensures SlotsUpTo(plan, inputRef, i).Ok? <==> forall j :: 0 <= j < i ==> !SlotSearchFails(plan, plan[j].1, inputRef)
    ensures SlotsUpTo(plan, inputRef, i).Ok? ==>
      Get(SlotsUpTo(plan, inputRef, i).value, slot) ==
        if StepsWithSlot(plan, inputRef, slot, i) == [] then None else Some(StepsWithSlot(plan, inputRef, slot, i))
  {
    SlotsUpToOk(plan, inputRef, i);
    if SlotsUpTo(plan, inputRef, i).Ok? {
      SlotsUpToGet(plan, inputRef, i, slot);
    }
  }

  /** The search over the first i steps fails exactly when one of them is a malformed attribute retrieval. */
  lemma {:induction false} SlotsUpToOk(plan: Plan, inputRef: string, i: nat)
    requires i <= |plan|
    ensures SlotsUpTo(plan, inputRef, i).Ok? <==> forall j :: 0 <= j < i ==> !SlotSearchFails(plan, plan[j].1, inputRef)
  {
    if i > 0 {
      SlotsUpToOk(plan, inputRef, i - 1);
    }
  }

  /** After a successful search, each slot maps to the keys of the qualifying steps that hold it. */
  lemma {:induction false} SlotsUpToGet(plan: Plan, inputRef: string, i: nat, slot: string)
    requires i <= |plan| && SlotsUpTo(plan, inputRef, i).Ok?
    ensures Get(SlotsUpTo(plan, inputRef, i).value, slot) ==
      if StepsWithSlot(plan, inputRef, slot, i) == [] then None else Some(StepsWithSlot(plan, inputRef, slot, i))
  {
    if i > 0 {
      SlotsUpToGet(plan, inputRef, i - 1, slot);
      var front := SlotsUpTo(plan, inputRef, i - 1);
      var (k, step) := plan[i - 1];
      if Qualifies(plan, step, inputRef) {
        ExtendGet(front.value, step.args[1], [k], slot);
      }
    }
  }

  /** The slot dictionary is a dictionary: each slot is a key once. */
  lemma {:induction false} SlotsUpToDistinct(plan: Plan, inputRef: string, i: nat)
    requires i <= |plan| && SlotsUpTo(plan, inputRef, i).Ok?
    ensures DistinctKeys(SlotsUpTo(plan, inputRef, i).value)
  {
    if i > 0 {
      SlotsUpToDistinct(plan, inputRef, i - 1);
      var front := SlotsUpTo(plan, inputRef, i - 1).value;
      var (k, step) := plan[i - 1];
      if Qualifies(plan, step, inputRef) {
        PutDistinct(front, step.args[1], Get(front, step.args[1]).GetOr([]) + [k]);
      }
    }
  }

  // ---------------------------------------------------------------------------
  // get_refs_for_slots, get_arg_types_for_step, extract_slot_type
  // ---------------------------------------------------------------------------

  /** `ArgType.from_str(slot.strip("{}").split(":")[0])`: the type named before the colon of a slot. */
  function ExtractSlotType(slot: string): Result<ArgType>
  {
    FromStr(Split(StripBraces(slot), ":")[0])
  }

  /** The arguments of the last `collect` step of the plan, or none. */
  function LastCollectArgs(plan: Plan): (r: seq<string>)
    ensures r != [] ==> exists i :: LastAt(plan, "collect", i) && plan[i].1.args == r
    decreases |plan|
  {
    if plan == [] then []
    else if plan[|plan| - 1].1.operation == "collect" then plan[|plan| - 1].1.args
    else
      var r := LastCollectArgs(plan[..|plan| - 1]);
      assert forall i :: 0 <= i < |plan| - 1 ==> plan[..|plan| - 1][i] == plan[i];
      r
  }

  /**
   * `get_arg_types_for_step(step, plan)`. A `retrieve_attribute` step
   * looks its attribute up in the ring through the entity step it names;
   * an analysis step takes the types of its class's first output; any
   * other step raises ValueError. The types of the analysis classes whose
   * definitions are not part of this model come from `undescribed`.
   */
  function ArgTypesForStep(entities: seq<EntityState>, step: Step, plan: Plan,
                           undescribed: string -> Result<seq<ArgType>>): (r: Result<Option<seq<ArgType>>>)
    ensures r.Ok? ==> step.operation == "retrieve_attribute" || Lookup(step.operation, Table(AnalysisOps)).Some?
    ensures r.Ok? && r.value.None? ==> step.operation == "retrieve_attribute"
  {
    if step.operation == "retrieve_attribute" then
      if |step.args| < 2 then Err(IndexError)
      else
        var entityStep :- match Get(plan, step.args[0]) {
          case None => Err(KeyError(step.args[0]))
          case Some(e) => Ok(e)
        };
        if entityStep.args == [] then Err(IndexError)
        else
          var entity :- EntityNamed(entities, JStr(entityStep.args[0]));
          var attribute :- AttributeNamed(entity, step.args[1]);
          Ok(attribute.types)
    else match Lookup(step.operation, Table(AnalysisOps))
      case Some(op) =>
        (match DescriptorOf(op)
         case Some(d) => if d.outputs == [] then Err(IndexError) else Ok(Some(d.outputs[0].types))
         case None =>
           var ts :- undescribed(step.operation);
           Ok(Some(ts)))
      case None => Err(ValueError("Unhandled operation type in collect statement: " + step.operation))
  }

  /** The analysis classes defined here take their types from their first output. */
  lemma DescribedAnalysisTypes(entities: seq<EntityState>, step: Step, plan: Plan,
                               undescribed: string -> Result<seq<ArgType>>, op: Op)
    requires CategoryOf(op) == AnalysisOps && DescriptorOf(op).Some? && step.operation == NameOf(op)
    ensures DescriptorOf(op).value.outputs != []
    ensures ArgTypesForStep(entities, step, plan, undescribed) == Ok(Some(DescriptorOf(op).value.outputs[0].types))
  {
    DescribedAnalysisOps(op);
    AnalysisTableComplete(op);
    var found := Lookup(step.operation, Table(AnalysisOps)).value;
    AnalysisTable(found);
    NameOfInjective(op, found);
  }

  /** Of the analysis operations, only `stddev`, `count_unique` and `min` have descriptors. */
  lemma DescribedAnalysisOps(op: Op)
    requires CategoryOf(op) == AnalysisOps && DescriptorOf(op).Some?
    ensures op == StdDev || op == CountUnique || op == Min
  {
  }

  /** `stddev`, `count_unique` and `min` steps can fill a slot for a number. */
  lemma NumericAnalysisTypes(entities: seq<EntityState>, step: Step, plan: Plan,
                             undescribed: string -> Result<seq<ArgType>>, op: Op)
    requires op in {StdDev, CountUnique, Min} && step.operation == NameOf(op)
    ensures ArgTypesForStep(entities, step, plan, undescribed).Ok?
    ensures var ts := ArgTypesForStep(entities, step, plan, undescribed).value;
      ts.Some? && Arithmetic in ts.value && Metric in ts.value
  {
    DescribedAnalysisTypes(entities, step, plan, undescribed, op);
  }

  /** `collect_slot_types`: the types of each collected step, under its reference. */
  function CollectSlotTypes(entities: seq<EntityState>, access: Plan, refs: seq<string>,
                            undescribed: string -> Result<seq<ArgType>>): (r: Result<Dict<Option<seq<ArgType>>>>)
    decreases |refs|
  {
    if refs == [] then Ok([])
    else
      var front :- CollectSlotTypes(entities, access, refs[..|refs| - 1], undescribed);
      var ref := refs[|refs| - 1];
      var step :- match Get(access, ref) {
        case None => Err(KeyError(ref))
        case Some(s) => Ok(s)
      };
      var types :- ArgTypesForStep(entities, step, access, undescribed);
      Ok(Put(front, ref, types))
  }

  const NoneNotIterable: Error := TypeError("argument of type 'NoneType' is not iterable")

  /**
   * The references, in order, whose types hold the slot's type. The slot
   * type is read afresh for each reference, so a slot naming no type
   * raises only when there is a reference to compare with; a reference
   * with no types (None) raises TypeError at the membership test.
   */
  function Matches(slotType: Result<ArgType>, types: Dict<Option<seq<ArgType>>>): (r: Result<seq<string>>)
    ensures r.Ok? ==> |r.value| <= |types|
    decreases |types|
  {
    if types == [] then Ok([])
    else
      var front :- Matches(slotType, types[..|types| - 1]);
      var (ref, ts) := types[|types| - 1];
      var t :- slotType;
      if ts.None? then Err(NoneNotIterable)
      else if t in ts.value then Ok(front + [ref]) else Ok(front)
  }

  /** Each slot, in order, with the empty list: `defaultdict(list, {k: [] for k in base_plan_slots.keys()})`. */
  function EmptyLists(slots: Dict<seq<string>>): (r: Dict<seq<string>>)
    decreases |slots|
  {
    if slots == [] then [] else Put(EmptyLists(slots[..|slots| - 1]), slots[|slots| - 1].0, [])
  }

  /** The matching loop over the slots, extending each slot's list. */
  function MatchSlots(acc: Dict<seq<string>>, slots: Dict<seq<string>>, types: Dict<Option<seq<ArgType>>>,
      extract: string -> Result<ArgType>): (r: Result<Dict<seq<string>>>)
    decreases |slots|
  {
    if slots == [] then Ok(acc)
    else
      var front :- MatchSlots(acc, slots[..|slots| - 1], types, extract);
      var found :- Matches(extract(slots[|slots| - 1].0), types);
      Ok(Extend(front, slots[|slots| - 1].0, found))
  }

  /** `get_refs_for_slots(access_plan, base_plan_slots)`. */
  function RefsForSlots(entities: seq<EntityState>, access: Plan, slots: Dict<seq<string>>,
                        undescribed: string -> Result<seq<ArgType>>): Result<Dict<seq<string>>>
  {
    var types :- CollectSlotTypes(entities, access, LastCollectArgs(access), undescribed);
    MatchSlots(EmptyLists(slots), slots, types, ExtractSlotType)
  }

  /** Item i of the type dictionary lists `ref` with types holding `t`. */
  predicate FitsAt(types: Dict<Option<seq<ArgType>>>, i: int, ref: string, t: ArgType)
  {
    0 <= i < |types| && types[i].0 == ref && types[i].1.Some? && t in types[i].1.value
  }

  /** A reference is listed for a slot exactly when its types hold the slot's type. */
  lemma {:induction false} MatchesMeaning(t: ArgType, types: Dict<Option<seq<ArgType>>>, ref: string)
    requires Matches(Ok(t), types).Ok?
    ensures ref in Matches(Ok(t), types).value <==> exists i :: FitsAt(types, i, ref, t)
    decreases |types|
  {
    if types != [] {
      var front := types[..|types| - 1];
      var last := types[|types| - 1];
      MatchesMeaning(t, front, ref);
      var found := Matches(Ok(t), front).value;
      assert Matches(Ok(t), types).value == found + (if t in last.1.value then [last.0] else []);
      if exists i :: FitsAt(types, i, ref, t) {
        var i :| FitsAt(types, i, ref, t);
        if i < |front| {
          assert FitsAt(front, i, ref, t);
        }
      }
      if exists i :: FitsAt(front, i, ref, t) {
        var i :| FitsAt(front, i, ref, t);
        assert FitsAt(types, i, ref, t);
      }
      if t in last.1.value && ref == last.0 {
        assert FitsAt(types, |types| - 1, ref, t);
      }
    }
  }

  /** The slots keep their keys, each starting from the empty list. */
  lemma {:induction false} EmptyListsGet(slots: Dict<seq<string>>, k: string)
    ensures Get(EmptyLists(slots), k) == if HasKey(slots, k) then Some([]) else None
    decreases |slots|
  {
    if slots != [] {
      var front := slots[..|slots| - 1];
      EmptyListsGet(front, k);
      PutGet(EmptyLists(front), slots[|slots| - 1].0, [], k);
      assert HasKey(slots, k) <==> HasKey(front, k) || slots[|slots| - 1].0 == k by {
        if HasKey(slots, k) {
          var i :| 0 <= i < |slots| && slots[i].0 == k;
          if i < |front| { assert front[i] == slots[i]; }
        }
        if HasKey(front, k) {
          var i :| 0 <= i < |front| && front[i].0 == k;
          assert slots[i] == front[i];
        }
      }
    }
  }

  /** With each slot a key once, the matching loop leaves each slot with exactly its matches. */
  lemma MatchSlotsGet(slots: Dict<seq<string>>, types: Dict<Option<seq<ArgType>>>,
                      extract: string -> Result<ArgType>, k: string)
    requires DistinctKeys(slots) && MatchSlots(EmptyLists(slots), slots, types, extract).Ok?
    ensures HasKey(slots, k) ==> (Matches(extract(k), types).Ok? &&
      Get(MatchSlots(EmptyLists(slots), slots, types, extract).value, k) == Some(Matches(extract(k), types).value))
    ensures !HasKey(slots, k) ==> Get(MatchSlots(EmptyLists(slots), slots, types, extract).value, k).None?
  {
    var acc := EmptyLists(slots);
    MatchSlotsGetFrom(acc, slots, types, extract, k);
    EmptyListsGet(slots, k);
    if HasKey(slots, k) {
      var found := Matches(extract(k), types).value;
      assert Get(acc, k).GetOr([]) + found == found;
    }
  }

  lemma {:induction false} MatchSlotsGetFrom(acc: Dict<seq<string>>, slots: Dict<seq<string>>,
                                             types: Dict<Option<seq<ArgType>>>,
                                             extract: string -> Result<ArgType>, k: string)
    requires DistinctKeys(slots) && MatchSlots(acc, slots, types, extract).Ok?
    ensures HasKey(slots, k) ==> Matches(extract(k), types).Ok?
    ensures Get(MatchSlots(acc, slots, types, extract).value, k) ==
      if HasKey(slots, k) then Some(Get(acc, k).GetOr([]) + Matches(extract(k), types).value) else Get(acc, k)
    decreases |slots|
  {
    if slots != [] {
      var front := slots[..|slots| - 1];
      var key := slots[|slots| - 1].0;
      DistinctFront(slots);
      HasKeyFront(slots, k);
      MatchSlotsGetFrom(acc, front, types, extract, k);
      var before := MatchSlots(acc, front, types, extract).value;
      ExtendGet(before, key, Matches(extract(key), types).value, k);
    }
  }

  // ---------------------------------------------------------------------------
  // compose_access_plan_and_base_plan
  // ---------------------------------------------------------------------------

  const UnboundReturnRef: Error := UnboundLocalError("access_plan_return_step_ref")

  /**
   * One listed step of the base plan: when its second argument is the
   * slot, its first argument becomes the access plan's return reference
   * and then its second the first candidate. The plan is returned as it
   * stands when an error is raised, with the first argument already
   * replaced if the error comes from the candidate list.
   */
  function RetargetOne(p: Plan, ref: string, slot: string, ret: Option<string>, cands: seq<string>): (r: (Plan, Option<Error>))
  {
    match Get(p, ref)
    case None => (p, Some(KeyError(ref)))
    case Some(step) =>
      if |step.args| < 2 then (p, Some(IndexError))
      else if step.args[1] != slot then (p, None)
      else if ret.None? then (p, Some(UnboundReturnRef))
      else
        var withSource := step.(args := step.args[0 := ret.value]);
        if cands == [] then (Put(p, ref, withSource), Some(IndexError))
        else (Put(p, ref, withSource.(args := withSource.args[1 := cands[0]])), None)
  }

  /** The inner loop: each listed step of one slot, stopping at the first error. */
  function RetargetRefs(p: Plan, refs: seq<string>, slot: string, ret: Option<string>, cands: seq<string>): (r: (Plan, Option<Error>))
    decreases |refs|
  {
    if refs == [] then (p, None)
    else
      var (q, e) := RetargetRefs(p, refs[..|refs| - 1], slot, ret, cands);
      if e.Some? then (q, e) else RetargetOne(q, refs[|refs| - 1], slot, ret, cands)
  }

  /**
   * The outer loop over the slots. The candidates come from a
   * `defaultdict(list)`, so a slot it lacks has none.
   */
  function RetargetSlots(p: Plan, slots: Dict<seq<string>>, ret: Option<string>, candidates: Dict<seq<string>>): (r: (Plan, Option<Error>))
    decreases |slots|
  {
    if slots == [] then (p, None)
    else
      var (q, e) := RetargetSlots(p, slots[..|slots| - 1], ret, candidates);
      var (slot, refs) := slots[|slots| - 1];
      if e.Some? then (q, e) else RetargetRefs(q, refs, slot, ret, Get(candidates, slot).GetOr([]))
  }

  /**
   * `compose_access_plan_and_base_plan(access_plan, base_plan, slots,
   * candidates)`: the base plan as the method leaves it (it edits the
   * steps in place) and the result, the edited base plan updated with the
   * access plan.
   */
  function ComposeAccessPlanAndBasePlanSpec(access: Plan, base: Plan, slots: Dict<seq<string>>,
                                            candidates: Dict<seq<string>>): (Plan, Result<Plan>)
  {
    var (q, e) := RetargetSlots(base, slots, LastWithOperation(access, "return"), candidates);
    (q, if e.Some? then Err(e.value) else Ok(Update(q, access)))
  }

  /** A step the retargeting can complete: it exists, has two arguments, and its slot has a candidate. */
  predicate Eligible(p: Plan, ref: string, candidates: Dict<seq<string>>)
  {
    Get(p, ref).Some? && |Get(p, ref).value.args| >= 2 &&
    Get(candidates, Get(p, ref).value.args[1]).GetOr([]) != []
  }

  /** The step retargeted: the return reference, then the first candidate for its slot. */
  function Retargeted(step: Step, ret: string, candidates: Dict<seq<string>>): (r: Step)
    requires |step.args| >= 2 && Get(candidates, step.args[1]).GetOr([]) != []
    ensures r.ref == step.ref && r.operation == step.operation && |r.args| == |step.args|
    ensures r.args[0] == ret && r.args[1] == Get(candidates, step.args[1]).value[0]
    ensures r.args[2..] == step.args[2..]
  {
    Step(step.ref, step.operation, step.args[0 := ret][1 := Get(candidates, step.args[1]).value[0]])
  }

  /** The steps named in `done` are retargeted and every other step is as in `p0`. */
  ghost predicate Reflects(q: Plan, p0: Plan, done: set<string>, ret: string, candidates: Dict<seq<string>>)
  {
    (forall x :: x in done ==> (Eligible(p0, x, candidates) &&
      Get(q, x) == Some(Retargeted(Get(p0, x).value, ret, candidates)))) &&
    (forall x :: x !in done ==> Get(q, x) == Get(p0, x))
  }

  lemma RetargetOneStep(q: Plan, p0: Plan, done: set<string>, r: string, slot: string, ret: string,
                        candidates: Dict<seq<string>>)
    requires Reflects(q, p0, done, ret, candidates) && r !in done
    requires Eligible(p0, r, candidates) && Get(p0, r).value.args[1] == slot
    ensures var res := RetargetOne(q, r, slot, Some(ret), Get(candidates, slot).GetOr([]));
      res.1.None? && Reflects(res.0, p0, done + {r}, ret, candidates)
  {
    var step := Get(p0, r).value;
    var res := RetargetOne(q, r, slot, Some(ret), Get(candidates, slot).GetOr([]));
    assert res.0 == Put(q, r, Retargeted(step, ret, candidates));
    forall x ensures Get(res.0, x) == if x == r then Some(Retargeted(step, ret, candidates)) else Get(q, x) {
      PutGet(q, r, Retargeted(step, ret, candidates), x);
    }
  }

  function Elems(xs: seq<string>): set<string>
  {
    set x | x in xs
  }

  lemma ElemsSnoc(xs: seq<string>)
    requires xs != []
    ensures Elems(xs) == Elems(xs[..|xs| - 1]) + {xs[|xs| - 1]}
  {
    assert xs == xs[..|xs| - 1] + [xs[|xs| - 1]];
  }

  predicate NoDups(xs: seq<string>)
  {
    forall i, j :: 0 <= i < j < |xs| ==> xs[i] != xs[j]
  }

  /** Every step listed once for one slot, none of them done before, is retargeted without error. */
  lemma {:induction false} RetargetRefsAll(q: Plan, p0: Plan, done: set<string>, refs: seq<string>, slot: string,
                                           ret: string, candidates: Dict<seq<string>>)
    requires Reflects(q, p0, done, ret, candidates) && NoDups(refs)
    requires forall j :: 0 <= j < |refs| ==> (refs[j] !in done && Eligible(p0, refs[j], candidates) &&
      Get(p0, refs[j]).value.args[1] == slot)
    ensures var res := RetargetRefs(q, refs, slot, Some(ret), Get(candidates, slot).GetOr([]));
      res.1.None? && Reflects(res.0, p0, done + Elems(refs), ret, candidates)
    decreases |refs|
  {
    if refs != [] {
      var front := refs[..|refs| - 1];
      var last := refs[|refs| - 1];
      var cands := Get(candidates, slot).GetOr([]);
      assert forall j :: 0 <= j < |front| ==> front[j] == refs[j];
      RetargetRefsAll(q, p0, done, front, slot, ret, candidates);
      var q1 := RetargetRefs(q, front, slot, Some(ret), cands).0;
      assert RetargetRefs(q, refs, slot, Some(ret), cands) == RetargetOne(q1, last, slot, Some(ret), cands);
      assert last !in done + Elems(front) by {
        assert forall j :: 0 <= j < |front| ==> front[j] != last;
      }
      RetargetOneStep(q1, p0, done + Elems(front), last, slot, ret, candidates);
      ElemsSnoc(refs);
    }
  }

  /** Every ref listed for a slot is a step that can be completed and holds that slot. */
  predicate ListsFit(p0: Plan, slots: Dict<seq<string>>, candidates: Dict<seq<string>>)
  {
    forall a, j :: 0 <= a < |slots| && 0 <= j < |slots[a].1| ==>
      Eligible(p0, slots[a].1[j], candidates) && Get(p0, slots[a].1[j]).value.args[1] == slots[a].0
  }

  function AllRefs(slots: Dict<seq<string>>): set<string>
  {
    set a, j | 0 <= a < |slots| && 0 <= j < |slots[a].1| :: slots[a].1[j]
  }

  lemma AllRefsSnoc(slots: Dict<seq<string>>)
    requires slots != []
    ensures AllRefs(slots) == AllRefs(slots[..|slots| - 1]) + Elems(slots[|slots| - 1].1)
  {
    var front := slots[..|slots| - 1];
    var refs := slots[|slots| - 1].1;
    forall x | x in AllRefs(slots) ensures x in AllRefs(front) + Elems(refs) {
      var a, i :| 0 <= a < |slots| && 0 <= i < |slots[a].1| && slots[a].1[i] == x;
      if a < |front| { assert front[a].1[i] == x; }
    }
    forall x | x in AllRefs(front) ensures x in AllRefs(slots) {
      var a, i :| 0 <= a < |front| && 0 <= i < |front[a].1| && front[a].1[i] == x;
      assert slots[a].1[i] == x;
    }
    forall x | x in refs ensures x in AllRefs(slots) {
      var i :| 0 <= i < |refs| && refs[i] == x;
      assert slots[|slots| - 1].1[i] == x;
    }
  }

  /** The steps listed for the last slot are listed for no earlier slot, since each holds its own slot. */
  lemma LastListFresh(p0: Plan, slots: Dict<seq<string>>, candidates: Dict<seq<string>>, j: nat)
    requires slots != [] && DistinctKeys(slots) && ListsFit(p0, slots, candidates)
    requires j < |slots[|slots| - 1].1|
    ensures slots[|slots| - 1].1[j] !in AllRefs(slots[..|slots| - 1])
  {
  }

  lemma FrontFits(p0: Plan, slots: Dict<seq<string>>, candidates: Dict<seq<string>>)
    requires slots != [] && ListsFit(p0, slots, candidates)
    ensures ListsFit(p0, slots[..|slots| - 1], candidates)
  {
    var front := slots[..|slots| - 1];
    forall a, j | 0 <= a < |front| && 0 <= j < |front[a].1|
      ensures Eligible(p0, front[a].1[j], candidates) && Get(p0, front[a].1[j]).value.args[1] == front[a].0
    {
      assert front[a] == slots[a];
    }
  }

  /**
   * With each slot listed once, each of its steps listed once and holding
   * it, and every step completable, the loops raise nothing and retarget
   * exactly the listed steps.
   */
  lemma {:induction false} RetargetSlotsAll(q: Plan, p0: Plan, done: set<string>, slots: Dict<seq<string>>,
                                            ret: string, candidates: Dict<seq<string>>)
    requires Reflects(q, p0, done, ret, candidates) && DistinctKeys(slots) && ListsFit(p0, slots, candidates)
    requires forall a :: 0 <= a < |slots| ==> NoDups(slots[a].1)
    requires forall a, j :: 0 <= a < |slots| && 0 <= j < |slots[a].1| ==> slots[a].1[j] !in done
    ensures var res := RetargetSlots(q, slots, Some(ret), candidates);
      res.1.None? && Reflects(res.0, p0, done + AllRefs(slots), ret, candidates)
    decreases |slots|
  {
    if slots != [] {
      var front := slots[..|slots| - 1];
      var (slot, refs) := slots[|slots| - 1];
      assert forall a :: 0 <= a < |front| ==> front[a] == slots[a];
      DistinctFront(slots);
      FrontFits(p0, slots, candidates);
      RetargetSlotsAll(q, p0, done, front, ret, candidates);
      var q1 := RetargetSlots(q, front, Some(ret), candidates).0;
      forall j | 0 <= j < |refs| ensures refs[j] !in done + AllRefs(front) {
        LastListFresh(p0, slots, candidates, j);
      }
      RetargetRefsAll(q1, p0, done + AllRefs(front), refs, slot, ret, candidates);
      AllRefsSnoc(slots);
    }
  }

  /** Step j of the plan is collected by the slot search, under `slot`. */
  predicate QualifiesAt(plan: Plan, inputRef: string, j: int, slot: string)
  {
    0 <= j < |plan| && Qualifies(plan, plan[j].1, inputRef) && plan[j].1.args[1] == slot
  }

  /** The keys of the steps the slot search collects. */
  function QualifyingKeys(plan: Plan, inputRef: string): set<string>
  {
    set j | 0 <= j < |plan| && Qualifies(plan, plan[j].1, inputRef) :: plan[j].0
  }

  /** A slot lists the keys of the steps collected under it, each once. */
  lemma {:induction false} StepsWithSlotMembers(plan: Plan, inputRef: string, slot: string, i: nat, r: string)
    requires i <= |plan| && DistinctKeys(plan)
    ensures NoDups(StepsWithSlot(plan, inputRef, slot, i))
    ensures r in StepsWithSlot(plan, inputRef, slot, i) <==> exists j :: j < i && QualifiesAt(plan, inputRef, j, slot) && plan[j].0 == r
  {
    if i > 0 {
      StepsWithSlotMembers(plan, inputRef, slot, i - 1, r);
      StepsWithSlotMembers(plan, inputRef, slot, i - 1, plan[i - 1].0);
    }
  }

  /**
   * The slot dictionary of a base plan meets the conditions of
   * `RetargetSlotsAll` once every slot has a candidate, and lists exactly
   * the steps the search collects.
   */
  lemma BasePlanSlotsFit(plan: Plan, inputRef: string, candidates: Dict<seq<string>>)
    requires DistinctKeys(plan) && BasePlanSlots(plan, inputRef).Ok?
    requires var slots := BasePlanSlots(plan, inputRef).value;
      forall a :: 0 <= a < |slots| ==> Get(candidates, slots[a].0).GetOr([]) != []
    ensures var slots := BasePlanSlots(plan, inputRef).value;
      DistinctKeys(slots) && ListsFit(plan, slots, candidates) &&
      (forall a :: 0 <= a < |slots| ==> NoDups(slots[a].1)) &&
      AllRefs(slots) == QualifyingKeys(plan, inputRef)
  {
    SlotsUpToDistinct(plan, inputRef, |plan|);
    BasePlanSlotsLists(plan, inputRef);
    BasePlanSlotsEligible(plan, inputRef, candidates);
    BasePlanSlotsCover(plan, inputRef);
  }

  /** Each slot's list is the search's list of the steps that use that slot. */
  lemma BasePlanSlotsLists(plan: Plan, inputRef: string)
    requires DistinctKeys(plan) && BasePlanSlots(plan, inputRef).Ok?
    ensures var slots := BasePlanSlots(plan, inputRef).value;
      forall a :: 0 <= a < |slots| ==> slots[a].1 == StepsWithSlot(plan, inputRef, slots[a].0, |plan|)
  {
    var slots := BasePlanSlots(plan, inputRef).value;
    SlotsUpToDistinct(plan, inputRef, |plan|);
    forall a | 0 <= a < |slots|
      ensures slots[a].1 == StepsWithSlot(plan, inputRef, slots[a].0, |plan|)
    {
      GetAt(slots, a);
      SlotsUpToMeaning(plan, inputRef, |plan|, slots[a].0);
    }
  }

  /** Each slot's list has no repeats and names eligible steps that use that slot. */
  lemma BasePlanSlotsEligible(plan: Plan, inputRef: string, candidates: Dict<seq<string>>)
    requires DistinctKeys(plan) && BasePlanSlots(plan, inputRef).Ok?
    requires var slots := BasePlanSlots(plan, inputRef).value;
      forall a :: 0 <= a < |slots| ==> Get(candidates, slots[a].0).GetOr([]) != []
    ensures var slots := BasePlanSlots(plan, inputRef).value;
      ListsFit(plan, slots, candidates) && forall a :: 0 <= a < |slots| ==> NoDups(slots[a].1)
  {
    var slots := BasePlanSlots(plan, inputRef).value;
    BasePlanSlotsLists(plan, inputRef);
    forall a | 0 <= a < |slots| ensures NoDups(slots[a].1) {
      StepsWithSlotMembers(plan, inputRef, slots[a].0, |plan|, "");
    }
    forall a, j | 0 <= a < |slots| && 0 <= j < |slots[a].1|
      ensures Eligible(plan, slots[a].1[j], candidates) && Get(plan, slots[a].1[j]).value.args[1] == slots[a].0
    {
      StepsWithSlotMembers(plan, inputRef, slots[a].0, |plan|, slots[a].1[j]);
      var k :| k < |plan| && QualifiesAt(plan, inputRef, k, slots[a].0) && plan[k].0 == slots[a].1[j];
      GetAt(plan, k);
    }
  }

  /** The slots' lists together name exactly the qualifying steps. */
  lemma BasePlanSlotsCover(plan: Plan, inputRef: string)
    requires DistinctKeys(plan) && BasePlanSlots(plan, inputRef).Ok?
    ensures AllRefs(BasePlanSlots(plan, inputRef).value) == QualifyingKeys(plan, inputRef)
  {
    var slots := BasePlanSlots(plan, inputRef).value;
    BasePlanSlotsLists(plan, inputRef);
    forall x | x in QualifyingKeys(plan, inputRef) ensures x in AllRefs(slots) {
      var k :| 0 <= k < |plan| && Qualifies(plan, plan[k].1, inputRef) && plan[k].0 == x;
      var slot := plan[k].1.args[1];
      StepsWithSlotMembers(plan, inputRef, slot, |plan|, x);
      SlotsUpToMeaning(plan, inputRef, |plan|, slot);
      var list := Get(slots, slot).value;
      var a :| 0 <= a < |slots| && slots[a] == (slot, list);
      var i :| 0 <= i < |list| && list[i] == x;
      assert slots[a].1[i] == x;
    }
    forall x | x in AllRefs(slots) ensures x in QualifyingKeys(plan, inputRef) {
      var a, i :| 0 <= a < |slots| && 0 <= i < |slots[a].1| && slots[a].1[i] == x;
      StepsWithSlotMembers(plan, inputRef, slots[a].0, |plan|, x);
    }
  }

  /**
   * `compose_access_plan_and_base_plan` with the slots the search found in
   * a base plan, an access plan with a `return` step and a candidate for
   * every slot: nothing is raised, each collected step now reads its
   * attribute from the access plan's last return step, with the first
   * candidate for its slot as the attribute, every other step of the base
   * plan is as it was, and the result is that plan updated with the
   * access plan.
   */
  lemma ComposeAccessPlanAndBasePlanRetargets(access: Plan, base: Plan, inputRef: string,
                                              candidates: Dict<seq<string>>, k: string)
    requires DistinctKeys(base) && BasePlanSlots(base, inputRef).Ok?
    requires LastWithOperation(access, "return").Some?
    requires var slots := BasePlanSlots(base, inputRef).value;
      forall a :: 0 <= a < |slots| ==> Get(candidates, slots[a].0).GetOr([]) != []
    ensures var r := ComposeAccessPlanAndBasePlanSpec(access, base, BasePlanSlots(base, inputRef).value, candidates);
      r.1 == Ok(Update(r.0, access)) &&
      if k in QualifyingKeys(base, inputRef) then
        Eligible(base, k, candidates) &&
        Get(r.0, k) == Some(Retargeted(Get(base, k).value, LastWithOperation(access, "return").value, candidates))
      else Get(r.0, k) == Get(base, k)
  {
    var slots := BasePlanSlots(base, inputRef).value;
    var ret := LastWithOperation(access, "return").value;
    BasePlanSlotsFit(base, inputRef, candidates);
    RetargetSlotsAll(base, base, {}, slots, ret, candidates);
  }

  // ---------------------------------------------------------------------------
  // compose
  // ---------------------------------------------------------------------------

  const NoViableFillers: Error := ValueError("Access plan and base plan incompatible due to lack of viable slot fillers.")

  /** `all_slots_to_ref[k].extend(v)` for each item of `refs`. */
  function ExtendAll(all: Dict<seq<string>>, refs: Dict<seq<string>>): Dict<seq<string>>
    decreases |refs|
  {
    if refs == [] then all
    else Extend(ExtendAll(all, refs[..|refs| - 1]), refs[|refs| - 1].0, refs[|refs| - 1].1)
  }

  /** Some slot has no reference to fill it. */
  predicate SomeSlotEmpty(refs: Dict<seq<string>>)
  {
    exists a :: 0 <= a < |refs| && refs[a].1 == []
  }

  /**
   * `compose(base_plan, access_plans)` on a composer that has handed out n
   * letters: the composed plan with every slot's candidates, and the
   * number of letters drawn (one per access plan reached).
   */
  function ComposeSpec(entities: seq<EntityState>, base: Plan, accessPlans: Dict<Plan>, n: nat,
                       undescribed: string -> Result<seq<ArgType>>): (r: (Result<(Plan, Dict<seq<string>>)>, nat))
  {
    ComposeFrom(entities, undescribed, base, [], accessPlans, 0, n)
  }

  /**
   * One round of `compose` and the letters it draws. Every `depth` gives
   * the same round (`RoundIs`); the loop passes the number of access plans
   * left, so that a proof about the loop sees each round as a single step.
   */
  function Round(entities: seq<EntityState>, undescribed: string -> Result<seq<ArgType>>, final: Plan,
                 all: Dict<seq<string>>, inputRef: string, access: Plan, m: nat, depth: nat)
    : (Result<(Plan, Dict<seq<string>>)>, nat)
    decreases depth
  {
    if depth == 0 then (ComposeNextSpec(entities, final, all, inputRef, access, m, undescribed), LettersDrawn(final, inputRef))
    else Round(entities, undescribed, final, all, inputRef, access, m, depth - 1)
  }

  /**
   * The loop of `compose` from access plan i on, with the plan and the
   * candidates so far and the letters' call number m: the result, and the
   * number of letters drawn. An error ends the loop.
   */
  function ComposeFrom(entities: seq<EntityState>, undescribed: string -> Result<seq<ArgType>>, final: Plan,
                       all: Dict<seq<string>>, accessPlans: Dict<Plan>, i: nat, m: nat)
    : (Result<(Plan, Dict<seq<string>>)>, nat)
    requires i <= |accessPlans|
    decreases |accessPlans| - i
  {
    if i == |accessPlans| then (Ok((final, all)), 0)
    else
      var next := Round(entities, undescribed, final, all, accessPlans[i].0, accessPlans[i].1, m, |accessPlans| - i);
      if next.0.Err? then next
      else
        var rest := ComposeFrom(entities, undescribed, next.0.value.0, next.0.value.1, accessPlans, i + 1, m + next.1);
        (rest.0, next.1 + rest.1)
  }

  /**
   * One round of `compose`: the access plan for `inputRef`, renamed with
   * the letters of call n, composed into the plan so far.
   */
  function ComposeNextSpec(entities: seq<EntityState>, final: Plan, all: Dict<seq<string>>, inputRef: string,
                           access: Plan, n: nat, undescribed: string -> Result<seq<ArgType>>)
    : (r: Result<(Plan, Dict<seq<string>>)>)
    ensures r.Ok? ==> BasePlanSlots(final, inputRef).Ok?
  {
    match BasePlanSlots(final, inputRef)
    case Err(e) => Err(e)
    case Ok(slots) =>
      match RenamedPlan(access, LetterAt(n))
      case Err(e) => Err(e)
      case Ok(renamed) =>
        match RefsForSlots(entities, renamed, slots, undescribed)
        case Err(e) => Err(e)
        case Ok(refs) =>
          if SomeSlotEmpty(refs) then Err(NoViableFillers)
          else match ComposeAccessPlanAndBasePlanSpec(renamed, final, slots, refs).1
            case Err(e) => Err(e)
            case Ok(p) => Ok((p, ExtendAll(all, refs)))
  }

  /** The letters one round draws: one, unless the slot search fails first. */
  function LettersDrawn(final: Plan, inputRef: string): (r: nat)
    ensures r <= 1
  {
    if BasePlanSlots(final, inputRef).Err? then 0 else 1
  }

  /** A slot dictionary with no empty list gives every one of its slots a candidate. */
  lemma CandidatesForEverySlot(slots: Dict<seq<string>>, types: Dict<Option<seq<ArgType>>>,
                                extract: string -> Result<ArgType>)
    requires DistinctKeys(slots) && MatchSlots(EmptyLists(slots), slots, types, extract).Ok?
    requires !SomeSlotEmpty(MatchSlots(EmptyLists(slots), slots, types, extract).value)
    ensures forall a :: 0 <= a < |slots| ==> Get(MatchSlots(EmptyLists(slots), slots, types, extract).value, slots[a].0).GetOr([]) != []
  {
    var refs := MatchSlots(EmptyLists(slots), slots, types, extract).value;
    forall a | 0 <= a < |slots| ensures Get(refs, slots[a].0).GetOr([]) != [] {
      MatchSlotsGet(slots, types, extract, slots[a].0);
      var i :| 0 <= i < |refs| && refs[i] == (slots[a].0, Get(refs, slots[a].0).value);
    }
  }

  /** Composing one access plan: the slots, the renamed plan and the candidates found, then the merge. */
  lemma ComposeOneUnfold(entities: seq<EntityState>, base: Plan, inputRef: string, access: Plan, n: nat,
                         undescribed: string -> Result<seq<ArgType>>)
    requires ComposeSpec(entities, base, [(inputRef, access)], n, undescribed).0.Ok?
    ensures BasePlanSlots(base, inputRef).Ok? && RenamedPlan(access, LetterAt(n)).Ok?
    ensures var renamed := RenamedPlan(access, LetterAt(n)).value;
      var slots := BasePlanSlots(base, inputRef).value;
      RefsForSlots(entities, renamed, slots, undescribed).Ok? &&
      var refs := RefsForSlots(entities, renamed, slots, undescribed).value;
      !SomeSlotEmpty(refs) &&
      ComposeAccessPlanAndBasePlanSpec(renamed, base, slots, refs).1 == Ok(ComposeSpec(entities, base, [(inputRef, access)], n, undescribed).0.value.0)
  {
    ComposeSingle(entities, base, inputRef, access, n, undescribed);
  }

  /** With one access plan, `compose` is one round from the base plan. */
  lemma ComposeSingle(entities: seq<EntityState>, base: Plan, inputRef: string, access: Plan, n: nat,
                      undescribed: string -> Result<seq<ArgType>>)
    ensures ComposeSpec(entities, base, [(inputRef, access)], n, undescribed).0 == ComposeNextSpec(entities, base, [], inputRef, access, n, undescribed)
  {
    var accessPlans := [(inputRef, access)];
    ComposeFromOne(entities, undescribed, base, [], accessPlans, n);
    RoundIs(entities, undescribed, base, [], inputRef, access, n, |accessPlans|);
  }

  /** Over a single access plan, the loop is its one round. */
  lemma ComposeFromOne(entities: seq<EntityState>, undescribed: string -> Result<seq<ArgType>>, final: Plan,
                       all: Dict<seq<string>>, accessPlans: seq<(string, Plan)>, m: nat)
    requires |accessPlans| == 1
    ensures ComposeFrom(entities, undescribed, final, all, accessPlans, 0, m).0 ==
      Round(entities, undescribed, final, all, accessPlans[0].0, accessPlans[0].1, m, |accessPlans|).0
  {
    var next := Round(entities, undescribed, final, all, accessPlans[0].0, accessPlans[0].1, m, |accessPlans|);
    if next.0.Ok? {
      assert ComposeFrom(entities, undescribed, next.0.value.0, next.0.value.1, accessPlans, 1, m + next.1) == (next.0, 0);
    }
  }

  /** The merge step of `compose` for one access plan, already renamed. */
  lemma MergeOne(entities: seq<EntityState>, base: Plan, inputRef: string, renamed: Plan,
                 undescribed: string -> Result<seq<ArgType>>, final: Plan, k: string)
    requires DistinctKeys(base) && DistinctKeys(renamed) && LastWithOperation(renamed, "return").Some?
    requires BasePlanSlots(base, inputRef).Ok?
    requires RefsForSlots(entities, renamed, BasePlanSlots(base, inputRef).value, undescribed).Ok?
    requires var slots := BasePlanSlots(base, inputRef).value;
      var refs := RefsForSlots(entities, renamed, slots, undescribed).value;
      !SomeSlotEmpty(refs) && ComposeAccessPlanAndBasePlanSpec(renamed, base, slots, refs).1 == Ok(final)
    ensures HasKey(renamed, k) ==> Get(final, k) == Get(renamed, k)
    ensures !HasKey(renamed, k) && k !in QualifyingKeys(base, inputRef) ==> Get(final, k) == Get(base, k)
    ensures var refs := RefsForSlots(entities, renamed, BasePlanSlots(base, inputRef).value, undescribed).value;
      !HasKey(renamed, k) && k in QualifyingKeys(base, inputRef) ==>
        Eligible(base, k, refs) &&
        Get(final, k) == Some(Retargeted(Get(base, k).value, LastWithOperation(renamed, "return").value, refs))
  {
    var slots := BasePlanSlots(base, inputRef).value;
    var refs := RefsForSlots(entities, renamed, slots, undescribed).value;
    var types := CollectSlotTypes(entities, renamed, LastCollectArgs(renamed), undescribed).value;
    SlotsUpToDistinct(base, inputRef, |base|);
    CandidatesForEverySlot(slots, types, ExtractSlotType);
    ComposeAccessPlanAndBasePlanRetargets(renamed, base, inputRef, refs, k);
    var q := ComposeAccessPlanAndBasePlanSpec(renamed, base, slots, refs).0;
    UpdateGet(q, renamed, k);
  }

  /**
   * Composing one access plan into a base plan: the access plan, renamed
   * with the composer's next letters, is merged in, and each base step the
   * slot search collects now reads from the access plan's last return step
   * with the first candidate for its slot; every other base step is as it
   * was.
   */
  lemma ComposeOne(entities: seq<EntityState>, base: Plan, inputRef: string, access: Plan, n: nat,
                   undescribed: string -> Result<seq<ArgType>>, k: string)
    requires DistinctKeys(base) && DistinctKeys(access)
    requires ComposeSpec(entities, base, [(inputRef, access)], n, undescribed).0.Ok?
    requires RenamedPlan(access, LetterAt(n)).Ok? && LastWithOperation(RenamedPlan(access, LetterAt(n)).value, "return").Some?
    ensures BasePlanSlots(base, inputRef).Ok?
    ensures RefsForSlots(entities, RenamedPlan(access, LetterAt(n)).value, BasePlanSlots(base, inputRef).value, undescribed).Ok?
    ensures var renamed := RenamedPlan(access, LetterAt(n)).value;
      var refs := RefsForSlots(entities, renamed, BasePlanSlots(base, inputRef).value, undescribed).value;
      var final := ComposeSpec(entities, base, [(inputRef, access)], n, undescribed).0.value.0;
      (HasKey(renamed, k) ==> Get(final, k) == Get(renamed, k)) &&
      (!HasKey(renamed, k) && k !in QualifyingKeys(base, inputRef) ==> Get(final, k) == Get(base, k)) &&
      (!HasKey(renamed, k) && k in QualifyingKeys(base, inputRef) ==>
        Eligible(base, k, refs) &&
        Get(final, k) == Some(Retargeted(Get(base, k).value, LastWithOperation(renamed, "return").value, refs)))
  {
    ComposeOneUnfold(entities, base, inputRef, access, n, undescribed);
    RenamedPlanDistinct(access, LetterAt(n));
    var final := ComposeSpec(entities, base, [(inputRef, access)], n, undescribed).0.value.0;
    MergeOne(entities, base, inputRef, RenamedPlan(access, LetterAt(n)).value, undescribed, final, k);
  }

  /**
   * The bookkeeping of the loop of `compose`: if `spec` is what the loop
   * gives from access plan i on, after i letters, then one round's result
   * either continues the loop from access plan i + 1 or is the result.
   */
  lemma ComposeAdvance(entities: seq<EntityState>, undescribed: string -> Result<seq<ArgType>>,
                       spec: (Result<(Plan, Dict<seq<string>>)>, nat), final: Plan, all: Dict<seq<string>>,
                       accessPlans: Dict<Plan>, i: nat, n: nat, next: Result<(Plan, Dict<seq<string>>)>, drawn: nat)
    requires i < |accessPlans|
    requires var rest := ComposeFrom(entities, undescribed, final, all, accessPlans, i, n + i);
      spec == (rest.0, i + rest.1)
    requires Round(entities, undescribed, final, all, accessPlans[i].0, accessPlans[i].1, n + i, |accessPlans| - i) == (next, drawn)
    requires next.Ok? ==> drawn == 1
    ensures next.Ok? ==>
      var rest := ComposeFrom(entities, undescribed, next.value.0, next.value.1, accessPlans, i + 1, n + (i + 1));
      spec == (rest.0, (i + 1) + rest.1)
    ensures next.Err? ==> spec == (next, i + drawn)
  {
    assert n + (i + 1) == n + i + 1;
  }

  /** A round, at any depth, is `ComposeNextSpec`, drawing `LettersDrawn` letters. */
  lemma {:induction false} RoundIs(entities: seq<EntityState>, undescribed: string -> Result<seq<ArgType>>, final: Plan,
                                   all: Dict<seq<string>>, inputRef: string, access: Plan, m: nat, depth: nat)
    ensures Round(entities, undescribed, final, all, inputRef, access, m, depth) ==
      (ComposeNextSpec(entities, final, all, inputRef, access, m, undescribed), LettersDrawn(final, inputRef))
    decreases depth
  {
    if depth > 0 {
      RoundIs(entities, undescribed, final, all, inputRef, access, m, depth - 1);
    }
  }

  /** One more plan renamed, with the letters of call n + i. */
  lemma RenameEachStep(plans: seq<Plan>, n: nat, i: nat)
    requires i < |plans| && RenameEach(plans[..i], n).0.Ok?
    ensures var p := RenamedPlan(plans[i], LetterAt(n + i));
      RenameEach(plans[..i + 1], n) ==
        if p.Err? then (Err(p.error), i + 1) else (Ok(RenameEach(plans[..i], n).0.value + [p.value]), i + 1)
  {
    var q := plans[..i + 1];
    assert |q| == i + 1 && q[..|q| - 1] == plans[..i] && q[|q| - 1] == plans[i];
  }

  /** One pass of the renaming loop: a failed renaming ends it, a renamed plan is appended. */
  lemma RenameEachAdvance(plans: seq<Plan>, n: nat, i: nat, updated: seq<Plan>, renamed: Result<Plan>)
    requires i < |plans| && RenameEach(plans[..i], n) == (Ok(updated), i)
    requires renamed == RenamedPlan(plans[i], LetterAt(n + i))
    ensures renamed.Err? ==> RenameEach(plans, n) == (Err(renamed.error), i + 1)
    ensures renamed.Ok? ==> RenameEach(plans[..i + 1], n) == (Ok(updated + [renamed.value]), i + 1)
  {
    RenameEachStep(plans, n, i);
    if renamed.Err? {
      RenameEachErrorStays(plans, n, i + 1);
    }
  }

  lemma {:induction false} RenameEachErrorStays(plans: seq<Plan>, n: nat, i: nat)
    requires i <= |plans| && RenameEach(plans[..i], n).0.Err?
    ensures RenameEach(plans, n) == RenameEach(plans[..i], n)
    decreases |plans| - i
  {
    if i < |plans| {
      assert plans[..i + 1][..i] == plans[..i];
      RenameEachErrorStays(plans, n, i + 1);
    } else {
      assert plans[..i] == plans;
    }
  }

  lemma {:induction false} LastKeysErrorStays(plans: seq<Plan>, i: nat)
    requires i <= |plans| && LastKeys(plans[..i]).Err?
    ensures LastKeys(plans).Err?
    decreases |plans| - i
  {
    if i < |plans| {
      assert plans[..i + 1][..i] == plans[..i];
      LastKeysErrorStays(plans, i + 1);
    } else {
      assert plans[..i] == plans;
    }
  }

  lemma {:induction false} SlotsErrorStays(plan: Plan, inputRef: string, i: nat)
    requires i <= |plan| && SlotsUpTo(plan, inputRef, i).Err?
    ensures BasePlanSlots(plan, inputRef) == SlotsUpTo(plan, inputRef, i)
    decreases |plan| - i
  {
    if i < |plan| {
      SlotsErrorStays(plan, inputRef, i + 1);
    }
  }

  lemma {:induction false} CollectErrorStays(entities: seq<EntityState>, access: Plan, refs: seq<string>,
                                             undescribed: string -> Result<seq<ArgType>>, i: nat)
    requires i <= |refs| && CollectSlotTypes(entities, access, refs[..i], undescribed).Err?
    ensures CollectSlotTypes(entities, access, refs, undescribed) == CollectSlotTypes(entities, access, refs[..i], undescribed)
    decreases |refs| - i
  {
    if i < |refs| {
      assert refs[..i + 1][..i] == refs[..i];
      CollectErrorStays(entities, access, refs, undescribed, i + 1);
    } else {
      assert refs[..i] == refs;
    }
  }

  lemma {:induction false} MatchesErrorStays(t: Result<ArgType>, types: Dict<Option<seq<ArgType>>>, i: nat)
    requires i <= |types| && Matches(t, types[..i]).Err?
    ensures Matches(t, types) == Matches(t, types[..i])
    decreases |types| - i
  {
    if i < |types| {
      assert types[..i + 1][..i] == types[..i];
      MatchesErrorStays(t, types, i + 1);
    } else {
      assert types[..i] == types;
    }
  }

  /** One pass of the matching loop: a failed match ends it, a found list extends the slot's. */
  lemma MatchSlotsAdvance(acc: Dict<seq<string>>, slots: Dict<seq<string>>, types: Dict<Option<seq<ArgType>>>,
                          extract: string -> Result<ArgType>, a: nat, found: Dict<seq<string>>, matched: Result<seq<string>>)
    requires a < |slots| && MatchSlots(acc, slots[..a], types, extract) == Ok(found)
    requires matched == Matches(extract(slots[a].0), types)
    ensures matched.Err? ==> MatchSlots(acc, slots, types, extract) == Err(matched.error)
    ensures matched.Ok? ==> MatchSlots(acc, slots[..a + 1], types, extract) == Ok(Extend(found, slots[a].0, matched.value))
  {
    var q := slots[..a + 1];
    assert |q| == a + 1 && q[..|q| - 1] == slots[..a] && q[|q| - 1] == slots[a];
    if matched.Err? {
      MatchSlotsErrorStays(acc, slots, types, extract, a + 1);
    }
  }

  lemma {:induction false} MatchSlotsErrorStays(acc: Dict<seq<string>>, slots: Dict<seq<string>>,
                                                types: Dict<Option<seq<ArgType>>>,
                                                extract: string -> Result<ArgType>, i: nat)
    requires i <= |slots| && MatchSlots(acc, slots[..i], types, extract).Err?
    ensures MatchSlots(acc, slots, types, extract) == MatchSlots(acc, slots[..i], types, extract)
    decreases |slots| - i
  {
    if i < |slots| {
      assert slots[..i + 1][..i] == slots[..i];
      MatchSlotsErrorStays(acc, slots, types, extract, i + 1);
    } else {
      assert slots[..i] == slots;
    }
  }

  lemma {:induction false} RefsErrorStays(p: Plan, refs: seq<string>, slot: string, ret: Option<string>,
                                          cands: seq<string>, i: nat)
    requires i <= |refs| && RetargetRefs(p, refs[..i], slot, ret, cands).1.Some?
    ensures RetargetRefs(p, refs, slot, ret, cands) == RetargetRefs(p, refs[..i], slot, ret, cands)
    decreases |refs| - i
  {
    if i < |refs| {
      assert refs[..i + 1][..i] == refs[..i];
      RefsErrorStays(p, refs, slot, ret, cands, i + 1);
    } else {
      assert refs[..i] == refs;
    }
  }

  lemma {:induction false} SlotsRetargetErrorStays(p: Plan, slots: Dict<seq<string>>, ret: Option<string>,
                                                   candidates: Dict<seq<string>>, i: nat)
    requires i <= |slots| && RetargetSlots(p, slots[..i], ret, candidates).1.Some?
    ensures RetargetSlots(p, slots, ret, candidates) == RetargetSlots(p, slots[..i], ret, candidates)
    decreases |slots| - i
  {
    if i < |slots| {
      assert slots[..i + 1][..i] == slots[..i];
      SlotsRetargetErrorStays(p, slots, ret, candidates, i + 1);
    } else {
      assert slots[..i] == slots;
    }
  }

  /** The first step with the operation is the first one the scan meets. */
  lemma {:induction false} FirstWithOperationAt(plan: Plan, op: string, i: nat)
    requires i < |plan| && plan[i].1.operation == op
    requires forall j :: 0 <= j < i ==> plan[j].1.operation != op
    ensures FirstWithOperation(plan, op) == Some(plan[i].0)
    decreases i
  {
    if i > 0 {
      FirstWithOperationAt(plan[1..], op, i - 1);
    }
  }

  // ---------------------------------------------------------------------------
  // The composer object
  // ---------------------------------------------------------------------------

  /**
   * `SQRComposer`: the ring whose attributes type the slots, and the
   * letter counter (`alphabet_idx`, `alphabet_multiplier`) that every
   * renaming draws from. `undescribed` gives the output types of the
   * analysis classes whose definitions are not part of this model.
   */
  class Composer {
    const ring: Ring
    const undescribed: string -> Result<seq<ArgType>>
    var alphabetIdx: int
    var alphabetMultiplier: int

    predicate Valid()
      reads this
    {
      0 <= alphabetIdx < 26 && alphabetMultiplier >= 1
    }

    /** How many letters the composer has handed out. */
    function Issued(): nat
      reads this
      requires Valid()
    {
      alphabetIdx + 26 * (alphabetMultiplier - 1)
    }

    constructor (ring: Ring, undescribed: string -> Result<seq<ArgType>>)
      ensures Valid() && Issued() == 0
      ensures this.ring == ring && this.undescribed == undescribed
    {
      this.ring := ring;
      this.undescribed := undescribed;
      alphabetIdx := 0;
      alphabetMultiplier := 1;
    }

    /** `get_next_ref_letter`: the letters of the next call, A to Z, then AA to ZZ, and so on. */
    method GetNextRefLetter() returns (letter: string)
      requires Valid()
      modifies this
      ensures Valid() && Issued() == old(Issued()) + 1
      ensures letter == LetterAt(old(Issued()))
    {
      IssuedParts(alphabetIdx, alphabetMultiplier);
      AlphabetIsCapitals();
      letter := Repeat(Alphabet[alphabetIdx], alphabetMultiplier);
      alphabetIdx := alphabetIdx + 1;
      if alphabetIdx == |Alphabet| {
        alphabetMultiplier := alphabetMultiplier + 1;
        alphabetIdx := 0;
      }
    }

    /** `get_base_plan_slots(base_plan, access_plan_input_ref)`. */
    method GetBasePlanSlots(plan: Plan, inputRef: string) returns (r: Result<Dict<seq<string>>>)
      ensures r == BasePlanSlots(plan, inputRef)
    {
      var slots: Dict<seq<string>> := [];
      for i := 0 to |plan|
        invariant SlotsUpTo(plan, inputRef, i) == Ok(slots)
      {
        var (k, step) := plan[i];
        if step.operation == "retrieve_attribute" {
          if |step.args| == 0 {
            SlotsErrorStays(plan, inputRef, i + 1);
            return Err(IndexError);
          }
          var entityRef := step.args[0];
          if !HasKey(plan, entityRef) && entityRef == inputRef {
            if |step.args| < 2 {
              SlotsErrorStays(plan, inputRef, i + 1);
              return Err(IndexError);
            }
            if IsSlot(step.args[1]) {
              slots := Extend(slots, step.args[1], [k]);
            }
          }
        }
      }
      return Ok(slots);
    }

    /** `get_refs_for_slots(access_plan, base_plan_slots)`. */
    method GetRefsForSlots(access: Plan, slots: Dict<seq<string>>) returns (r: Result<Dict<seq<string>>>)
      ensures r == RefsForSlots(ring.entities, access, slots, undescribed)
    {
      var collectArgs := FindLastCollectArgs(access);
      var types := GetSlotTypes(access, collectArgs);
      if types.Err? {
        return Err(types.error);
      }
      r := MatchAllSlots(slots, types.value);
    }

    /** `collect_slot_types`: the loop over the collected references. */
    method GetSlotTypes(access: Plan, refs: seq<string>) returns (r: Result<Dict<Option<seq<ArgType>>>>)
      ensures r == CollectSlotTypes(ring.entities, access, refs, undescribed)
    {
      var types: Dict<Option<seq<ArgType>>> := [];
      for j := 0 to |refs|
        invariant CollectSlotTypes(ring.entities, access, refs[..j], undescribed) == Ok(types)
      {
        assert refs[..j + 1][..j] == refs[..j];
        var ref := refs[j];
        var step := Get(access, ref);
        if step.None? {
          CollectErrorStays(ring.entities, access, refs, undescribed, j + 1);
          return Err(KeyError(ref));
        }
        var stepTypes := ArgTypesForStep(ring.entities, step.value, access, undescribed);
        if stepTypes.Err? {
          CollectErrorStays(ring.entities, access, refs, undescribed, j + 1);
          return Err(stepTypes.error);
        }
        types := Put(types, ref, stepTypes.value);
      }
      assert refs[..|refs|] == refs;
      return Ok(types);
    }

    /**
     * `compose_access_plan_and_base_plan(access_plan, base_plan, slots,
     * candidates)`: the base plan's listed steps are edited in place.
     */
    method ComposeAccessPlanAndBasePlan(access: Plan, base: PlanRecord, slots: Dict<seq<string>>,
                                        candidates: Dict<seq<string>>) returns (r: Result<Plan>)
      modifies base
      ensures (base.steps, r) == ComposeAccessPlanAndBasePlanSpec(access, old(base.steps), slots, candidates)
    {
      var ret := FindLastOperation(access, "return");
      ghost var p0 := base.steps;
      for a := 0 to |slots|
        invariant RetargetSlots(p0, slots[..a], ret, candidates) == (base.steps, None)
      {
        assert slots[..a + 1][..a] == slots[..a];
        var (slot, refs) := slots[a];
        var e := RetargetSlot(base, refs, slot, ret, Get(candidates, slot).GetOr([]));
        if e.Some? {
          SlotsRetargetErrorStays(p0, slots, ret, candidates, a + 1);
          return Err(e.value);
        }
      }
      assert slots[..|slots|] == slots;
      return Ok(Update(base.steps, access));
    }

    /** The inner loop of `compose_access_plan_and_base_plan`: the steps listed for one slot. */
    method RetargetSlot(base: PlanRecord, refs: seq<string>, slot: string, ret: Option<string>, cands: seq<string>)
      returns (e: Option<Error>)
      modifies base
      ensures (base.steps, e) == RetargetRefs(old(base.steps), refs, slot, ret, cands)
    {
      ghost var q := base.steps;
      for j := 0 to |refs|
        invariant RetargetRefs(q, refs[..j], slot, ret, cands) == (base.steps, None)
      {
        assert refs[..j + 1][..j] == refs[..j];
        e := RetargetStep(base, refs[j], slot, ret, cands);
        if e.Some? {
          RefsErrorStays(q, refs, slot, ret, cands, j + 1);
          return;
        }
      }
      assert refs[..|refs|] == refs;
      return None;
    }

    /** One listed step: its source becomes the access plan's return step and its slot the first candidate. */
    method RetargetStep(base: PlanRecord, ref: string, slot: string, ret: Option<string>, cands: seq<string>)
      returns (e: Option<Error>)
      modifies base
      ensures (base.steps, e) == RetargetOne(old(base.steps), ref, slot, ret, cands)
    {
      var p := base.steps;
      var found := Get(p, ref);
      if found.None? {
        return Some(KeyError(ref));
      }
      var step := found.value;
      if |step.args| < 2 {
        return Some(IndexError);
      }
      if step.args[1] != slot {
        return None;
      }
      if ret.None? {
        return Some(UnboundReturnRef);
      }
      step := step.(args := step.args[0 := ret.value]);
      base.steps := Put(p, ref, step);
      if cands == [] {
        return Some(IndexError);
      }
      step := step.(args := step.args[1 := cands[0]]);
      base.steps := Put(p, ref, step);
      return None;
    }

    /** The renaming loop of `compose_filter_plans`: one letter per plan. */
    method RenamePlans(plans: seq<Plan>) returns (r: Result<seq<Plan>>)
      requires Valid()
      modifies this
      ensures Valid()
      ensures r == RenameEach(plans, old(Issued())).0
      ensures Issued() == old(Issued()) + RenameEach(plans, old(Issued())).1
    {
      ghost var n := Issued();
      var updated: seq<Plan> := [];
      for i := 0 to |plans|
        invariant Valid() && Issued() == n + i
        invariant RenameEach(plans[..i], n) == (Ok(updated), i)
      {
        var letter := GetNextRefLetter();
        assert letter == LetterAt(n + i);
        var renamed := AppendToPlanRefs(plans[i], letter);
        RenameEachAdvance(plans, n, i, updated, renamed);
        if renamed.Err? {
          return Err(renamed.error);
        }
        updated := updated + [renamed.value];
      }
      assert plans[..|plans|] == plans;
      return Ok(updated);
    }

    /** `compose_filter_plans(filter_plans, joiner_op)`. */
    method ComposeFilterPlans(plans: seq<Plan>, joiner: string) returns (r: Result<Plan>)
      requires Valid()
      modifies this
      ensures Valid()
      ensures r == ComposeFilterPlansSpec(plans, joiner, old(Issued())).0
      ensures Issued() == old(Issued()) + ComposeFilterPlansSpec(plans, joiner, old(Issued())).1
    {
      if |plans| == 0 {
        return Ok([]);
      } else if |plans| == 1 {
        return Ok(plans[0]);
      }
      ghost var n := Issued();
      var updated := RenamePlans(plans);
      ComposeFilterPlansCases(plans, joiner, n);
      if updated.Err? {
        return Err(updated.error);
      }
      var op := JoinerOp(joiner);
      var finals := FinalKeys(updated.value);
      if finals.Err? {
        return Err(finals.error);
      }
      var combined := MergePlans(updated.value);
      assert Issued() == n + |plans|;
      var letter := GetNextRefLetter();
      assert letter == LetterAt(n + |plans|);
      var ref := JoinerRef(letter);
      return Ok(Put(combined, ref, Step(ref, op, finals.value)));
    }

    /** `compose_filter_and_access_plan(access_plan, access_plan_filter)`. */
    method ComposeFilterAndAccessPlan(access: Plan, filter: Plan) returns (r: Result<Plan>)
      requires Valid()
      modifies this
      ensures Valid()
      ensures r == ComposeFilterAndAccessPlanSpec(access, filter, old(Issued())).0
      ensures Issued() == old(Issued()) + ComposeFilterAndAccessPlanSpec(access, filter, old(Issued())).1
    {
      if filter == [] {
        return Ok(access);
      }
      var letter := GetNextRefLetter();
      var renamed := AppendToPlanRefs(filter, letter);
      if renamed.Err? {
        return Err(renamed.error);
      }
      var combined := Update(access, renamed.value);
      var i := 0;
      while i < |access| && access[i].1.operation != "return"
        invariant i <= |access|
        invariant forall j :: 0 <= j < i ==> access[j].1.operation != "return"
      {
        i := i + 1;
      }
      if i == |access| {
        return Err(IndexError);
      }
      FirstWithOperationAt(access, "return", i);
      var ret := access[i].0;
      UpdateHasKey(access, renamed.value, ret);
      var step := Get(combined, ret).value;
      var last := renamed.value[|renamed.value| - 1].0;
      return Ok(Put(combined, ret, Step(step.ref, step.operation, step.args + [last])));
    }

    /** `compose(base_plan, access_plans)`: the composed plan, with every slot's candidates. */
    method Compose(base: Plan, accessPlans: Dict<Plan>) returns (r: Result<(Plan, Dict<seq<string>>)>)
      requires Valid()
      modifies this
      ensures Valid()
      ensures r == ComposeSpec(ring.entities, base, accessPlans, old(Issued()), undescribed).0
      ensures Issued() == old(Issued()) + ComposeSpec(ring.entities, base, accessPlans, old(Issued()), undescribed).1
    {
      ghost var n := Issued();
      ghost var spec := ComposeSpec(ring.entities, base, accessPlans, n, undescribed);
      var all: Dict<seq<string>> := [];
      var final := base;
      for i := 0 to |accessPlans|
        invariant Valid() && Issued() == n + i
        invariant var rest := ComposeFrom(ring.entities, undescribed, final, all, accessPlans, i, n + i);
          spec == (rest.0, i + rest.1)
      {
        var (inputRef, access) := accessPlans[i];
        var next := ComposeNext(final, all, inputRef, access, |accessPlans| - i);
        ghost var drawn := Issued() - (n + i);
        ComposeAdvance(ring.entities, undescribed, spec, final, all, accessPlans, i, n, next, drawn);
        if next.Err? {
          return Err(next.error);
        }
        final, all := next.value.0, next.value.1;
      }
      return Ok((final, all));
    }

    /** The body of the loop of `compose`, for one access plan. */
    method ComposeNext(final: Plan, all: Dict<seq<string>>, inputRef: string, access: Plan, ghost depth: nat)
      returns (r: Result<(Plan, Dict<seq<string>>)>)
      requires Valid()
      modifies this
      ensures Valid()
      ensures (r, Issued() - old(Issued())) == Round(ring.entities, undescribed, final, all, inputRef, access, old(Issued()), depth)
      ensures r.Ok? ==> Issued() == old(Issued()) + 1
    {
      RoundIs(ring.entities, undescribed, final, all, inputRef, access, Issued(), depth);
      var slots := GetBasePlanSlots(final, inputRef);
      if slots.Err? {
        return Err(slots.error);
      }
      var letter := GetNextRefLetter();
      var renamed := AppendToPlanRefs(access, letter);
      if renamed.Err? {
        return Err(renamed.error);
      }
      var refs := GetRefsForSlots(renamed.value, slots.value);
      if refs.Err? {
        return Err(refs.error);
      }
      var empty := AnySlotEmpty(refs.value);
      if empty {
        return Err(NoViableFillers);
      }
      var record := new PlanRecord(final);
      var composed := ComposeAccessPlanAndBasePlan(renamed.value, record, slots.value, refs.value);
      if composed.Err? {
        return Err(composed.error);
      }
      var extended := ExtendEach(all, refs.value);
      return Ok((composed.value, extended));
    }
  }

  /** The loop that keeps the arguments of the last `collect` step. */
  method FindLastCollectArgs(access: Plan) returns (args: seq<string>)
    ensures args == LastCollectArgs(access)
  {
    args := [];
    for i := 0 to |access|
      invariant args == LastCollectArgs(access[..i])
    {
      assert access[..i + 1][..i] == access[..i];
      if access[i].1.operation == "collect" {
        args := access[i].1.args;
      }
    }
    assert access[..|access|] == access;
  }

  /** The loop that keeps the key of the last step with the operation. */
  method FindLastOperation(plan: Plan, op: string) returns (ret: Option<string>)
    ensures ret == LastWithOperation(plan, op)
  {
    ret := None;
    for i := 0 to |plan|
      invariant ret == LastWithOperation(plan[..i], op)
    {
      assert plan[..i + 1][..i] == plan[..i];
      if plan[i].1.operation == op {
        ret := Some(plan[i].0);
      }
    }
    assert plan[..|plan|] == plan;
  }

  /** The inner loop of `get_refs_for_slots`: the references whose types hold the slot's type. */
  method MatchTypes(slotType: Result<ArgType>, types: Dict<Option<seq<ArgType>>>) returns (r: Result<seq<string>>)
    ensures r == Matches(slotType, types)
  {
    var matched: seq<string> := [];
    for b := 0 to |types|
      invariant Matches(slotType, types[..b]) == Ok(matched)
    {
      assert types[..b + 1][..b] == types[..b];
      if slotType.Err? {
        MatchesErrorStays(slotType, types, b + 1);
        return Err(slotType.error);
      }
      var (ref, stepTypes) := types[b];
      if stepTypes.None? {
        MatchesErrorStays(slotType, types, b + 1);
        return Err(NoneNotIterable);
      }
      if slotType.value in stepTypes.value {
        matched := matched + [ref];
      }
    }
    assert types[..|types|] == types;
    return Ok(matched);
  }

  /** The outer loop of `get_refs_for_slots`, from each slot with the empty list. */
  method MatchAllSlots(slots: Dict<seq<string>>, types: Dict<Option<seq<ArgType>>>) returns (r: Result<Dict<seq<string>>>)
    ensures r == MatchSlots(EmptyLists(slots), slots, types, ExtractSlotType)
  {
    var found := EmptyLists(slots);
    for a := 0 to |slots|
      invariant MatchSlots(EmptyLists(slots), slots[..a], types, ExtractSlotType) == Ok(found)
    {
      var matched := MatchTypes(ExtractSlotType(slots[a].0), types);
      MatchSlotsAdvance(EmptyLists(slots), slots, types, ExtractSlotType, a, found, matched);
      if matched.Err? {
        return Err(matched.error);
      }
      found := Extend(found, slots[a].0, matched.value);
    }
    assert slots[..|slots|] == slots;
    return Ok(found);
  }

  /** The last key of each plan, as `compose_filter_plans` collects them. */
  method FinalKeys(plans: seq<Plan>) returns (r: Result<seq<string>>)
    ensures r == LastKeys(plans)
  {
    var finals: seq<string> := [];
    for i := 0 to |plans|
      invariant LastKeys(plans[..i]) == Ok(finals)
    {
      assert plans[..i + 1][..i] == plans[..i];
      if plans[i] == [] {
        LastKeysErrorStays(plans, i + 1);
        return Err(IndexError);
      }
      finals := finals + [plans[i][|plans[i]| - 1].0];
    }
    assert plans[..|plans|] == plans;
    return Ok(finals);
  }

  /** `combined.update(plan)` for each renamed plan after the first. */
  method MergePlans(plans: seq<Plan>) returns (combined: Plan)
    requires plans != []
    ensures combined == MergeAll(plans)
  {
    combined := plans[0];
    for i := 1 to |plans|
      invariant combined == MergeAll(plans[..i])
    {
      assert plans[..i + 1][..i] == plans[..i];
      combined := Update(combined, plans[i]);
    }
    assert plans[..|plans|] == plans;
  }

  /** `all_slots_to_refs[slot].extend(refs)` for each slot found. */
  method ExtendEach(all: Dict<seq<string>>, refs: Dict<seq<string>>) returns (r: Dict<seq<string>>)
    ensures r == ExtendAll(all, refs)
  {
    r := all;
    for a := 0 to |refs|
      invariant r == ExtendAll(all, refs[..a])
    {
      assert refs[..a + 1][..a] == refs[..a];
      r := Extend(r, refs[a].0, refs[a].1);
    }
    assert refs[..|refs|] == refs;
  }

  /** The check for a slot with no viable filler. */
  method AnySlotEmpty(refs: Dict<seq<string>>) returns (b: bool)
    ensures b == SomeSlotEmpty(refs)
  {
    for a := 0 to |refs|
      invariant forall c :: 0 <= c < a ==> refs[c].1 != []
    {
      if refs[a].1 == [] {
        return true;
      }
    }
    return false;
  }

  /** The counter's two fields give back the count. */
  lemma IssuedParts(idx: int, multiplier: int)
    requires 0 <= idx < 26 && multiplier >= 1
    ensures (idx + 26 * (multiplier - 1)) % 26 == idx
    ensures (idx + 26 * (multiplier - 1)) / 26 == multiplier - 1
  {
  }
}
