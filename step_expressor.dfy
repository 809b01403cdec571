/**
 * `core/Planning/StepExpressor.py`: turning one step of an analysis plan
 * into words. The words for a step that another step refers to (what
 * `express_step` gives for it) are the parameter `express`.
 */
module StepExpressors {

  import opened Wrappers
  import opened Dicts
  import opened Text
  import opened OpNames
  import opened Operations
  import opened Ontology
  import opened Steps
  import opened ApiUtils
  import opened PlanningUtils
  import opened Placeholders

  /** `plan.plan_steps[step_ref]`. */
  function StepAt(plan: Plan, ref: string): (r: Result<Step>)
    ensures r.Ok? <==> HasKey(plan, ref)
    ensures r.Ok? ==> Get(plan, ref) == Some(r.value)
    ensures r.Err? ==> r.error == KeyError(ref)
  {
    match Get(plan, ref)
    case Some(s) => Ok(s)
    case None => Err(KeyError(ref))
  }

  /** A list of results, or the first error in it. */
  function Then<T>(front: seq<T>, r: Result<seq<T>>): Result<seq<T>>
  {
    if r.Ok? then Ok(front + r.value) else r
  }

  // ---------------------------------------------------------------------------
  // express_step: the dispatch
  // ---------------------------------------------------------------------------

  /** The `express_*` method a step goes to. */
  datatype Expressor = AnalysisStep | RetrievalStep | AggregationStep | FilterStep | SortStep | ArithmeticStep | RowNumStep

  /** The if-chain of `express_step` over the categories; collect, return and limit steps have no branch. */
  function ExpressorFor(c: Category): (e: Option<Expressor>)
    ensures e.None? <==> c in {CollectOps, ReturnOps, LimitOps}
  {
    match c
    case AnalysisOps => Some(AnalysisStep)
    case RetrievalOps => Some(RetrievalStep)
    case AggregationOps => Some(AggregationStep)
    case BooleanOps => Some(FilterStep)
    case SortOps => Some(SortStep)
    case ArithmeticOps => Some(ArithmeticStep)
    case RowNumOps => Some(RowNumStep)
    case _ => None
  }

  /** Which expressor `express_step` calls for the step `ref`. */
  function Dispatch(plan: Plan, ref: string): Result<Expressor>
  {
    var step :- StepAt(plan, ref);
    var op :- ResolveOperation(step.operation);
    match ExpressorFor(CategoryOf(op))
    case Some(e) => Ok(e)
    case None => Err(NotImplementedError("Unhandled operation type to resolve: '" + NameOf(op) + "'"))
  }

  /**
   * A step is dispatched by the table its operation is registered in;
   * collect, return and limit steps raise NotImplementedError, and a
   * missing step or unknown operation raises as the lookups do.
   */
  lemma DispatchCategory(plan: Plan, ref: string, c: Category)
    requires HasKey(plan, ref) && IsOperation(c, Get(plan, ref).value.operation)
    ensures ExpressorFor(c).Some? ==> Dispatch(plan, ref) == Ok(ExpressorFor(c).value)
    ensures ExpressorFor(c).None? <==> Dispatch(plan, ref).Err? && Dispatch(plan, ref).error.NotImplementedError?
  {
    ResolveCategory(Get(plan, ref).value.operation, c);
  }

  lemma DispatchLookups(plan: Plan, ref: string)
    ensures !HasKey(plan, ref) ==> Dispatch(plan, ref) == Err(KeyError(ref))
    ensures HasKey(plan, ref) && ResolveOperation(Get(plan, ref).value.operation).Err? ==>
      Dispatch(plan, ref) == Err(ValueError("Unable to resolve the operation name to operation object."))
  {
  }

  // ---------------------------------------------------------------------------
  // express_limit_step
  // ---------------------------------------------------------------------------

  /** The limit put in for `{0}`; a limit of one drops the placeholder and strips the text. */
  function ExpressLimit(template: string, limit: string): string
  {
    if limit != "1" then Replace(template, "{0}", limit) else Strip(Replace(template, "{0}", ""))
  }

  /** `express_limit_step`, on the step and its operation's template. */
  function ExpressLimitStep(step: Step, template: string): Result<string>
  {
    if |step.args| == 0 then Err(IndexError) else Ok(ExpressLimit(template, step.args[0]))
  }

  /**
   * On a plain template the limit fills `{0}`; a limit of "1" leaves the
   * rest of the template, stripped.
   */
  lemma ExpressLimitFills(t: Template, limit: string)
    requires Plain(t) && BraceFree(limit)
    ensures limit != "1" ==> ExpressLimit(Render(t), limit) == Render(FillSlot(t, 0, limit))
    ensures limit == "1" ==> ExpressLimit(Render(t), limit) == Strip(Render(FillSlot(t, 0, "")))
  {
    assert SlotToken(0) == "{0}";
    ReplaceSlot(t, 0, limit);
    ReplaceSlot(t, 0, "");
  }

  // ---------------------------------------------------------------------------
  // express_sort_step
  // ---------------------------------------------------------------------------

  /** 'asc' is ascending; any other sort type is descending. */
  function Direction(sortType: string): (d: string)
    ensures d == "ascending" <==> sortType == "asc"
  {
    if sortType == "asc" then "ascending" else "descending"
  }

  function SortPhrase(attr: string, sortType: string): string
  {
    attr + " sorted in " + Direction(sortType) + " order"
  }

  /** One phrase per (attribute, direction) pair of the arguments; an odd last argument is dropped. */
  function SortPhrases(args: seq<string>, express: string -> Result<string>): Result<seq<string>>
    decreases |args|
  {
    if |args| < 2 then Ok([])
    else
      var attr :- express(args[0]);
      Then([SortPhrase(attr, args[1])], SortPhrases(args[2..], express))
  }

  /** `express_sort_step`: the phrases joined with `oxfordcomma`. */
  function ExpressSort(args: seq<string>, express: string -> Result<string>): Result<string>
  {
    var phrases :- SortPhrases(args, express);
    Ok(Oxfordcomma(phrases))
  }

  /** The phrases exist exactly when every attribute of a whole pair can be expressed. */
  lemma {:induction false} SortPhrasesOk(args: seq<string>, express: string -> Result<string>)
    ensures SortPhrases(args, express).Ok? <==> forall k :: 0 <= k < |args| / 2 ==> express(args[2 * k]).Ok?
    decreases |args|
  {
    if |args| >= 2 {
      var rest := args[2..];
      SortPhrasesOk(rest, express);
      var n := |args| / 2;
      assert |rest| / 2 == n - 1;
      forall k | 0 <= k < n - 1
        ensures rest[2 * k] == args[2 * (k + 1)]
      {
      }
      if forall k :: 0 <= k < n ==> express(args[2 * k]).Ok? {
        assert express(args[2 * 0]).Ok?;
        forall k | 0 <= k < n - 1
          ensures express(rest[2 * k]).Ok?
        {
          assert express(args[2 * (k + 1)]).Ok?;
        }
      } else {
        var k :| 0 <= k < n && express(args[2 * k]).Err?;
        if k > 0 {
          assert express(rest[2 * (k - 1)]).Err?;
        }
      }
    }
  }

  /** When they exist, phrase k is argument 2k (expressed) sorted by argument 2k+1, for every whole pair. */
  lemma {:induction false} SortPhrasesValues(args: seq<string>, express: string -> Result<string>)
    requires SortPhrases(args, express).Ok?
    ensures |SortPhrases(args, express).value| == |args| / 2
    ensures forall k :: 0 <= k < |args| / 2 ==>
      express(args[2 * k]).Ok? && SortPhrases(args, express).value[k] == SortPhrase(express(args[2 * k]).value, args[2 * k + 1])
    decreases |args|
  {
    if |args| >= 2 {
      var rest := args[2..];
      SortPhrasesValues(rest, express);
      var ps := SortPhrases(args, express).value;
      var tail := SortPhrases(rest, express).value;
      assert ps == [SortPhrase(express(args[0]).value, args[1])] + tail;
      assert |rest| / 2 == |args| / 2 - 1;
      forall k | 0 < k < |args| / 2
        ensures express(args[2 * k]).Ok? && ps[k] == SortPhrase(express(args[2 * k]).value, args[2 * k + 1])
      {
        assert ps[k] == tail[k - 1];
        assert rest[2 * (k - 1)] == args[2 * k] && rest[2 * (k - 1) + 1] == args[2 * k + 1];
      }
    }
  }

  /** One pair of the arguments from position `i`. */
  lemma SortPhrasesAt(args: seq<string>, i: nat, express: string -> Result<string>)
    requires i + 2 <= |args|
    ensures express(args[i]).Err? ==> SortPhrases(args[i..], express) == Err(express(args[i]).error)
    ensures express(args[i]).Ok? ==>
      SortPhrases(args[i..], express) == Then([SortPhrase(express(args[i]).value, args[i + 1])], SortPhrases(args[i + 2..], express))
  {
    assert args[i..][2..] == args[i + 2..];
  }

  /** Results gathered so far, then one more, then the rest. */
  lemma ThenAppend<T>(front: seq<T>, x: T, r: Result<seq<T>>)
    ensures Then(front, Then([x], r)) == Then(front + [x], r)
  {
    if r.Ok? {
      assert front + ([x] + r.value) == (front + [x]) + r.value;
    }
  }

  /** The loop of `express_sort_step` over the argument pairs. */
  method ExpressSortStep(args: seq<string>, express: string -> Result<string>) returns (r: Result<string>)
    ensures r == ExpressSort(args, express)
  {
    var phrases: seq<string> := [];
    var i := 0;
    assert args[0..] == args;
    assert SortPhrases(args, express).Ok? ==> [] + SortPhrases(args, express).value == SortPhrases(args, express).value;
    while i + 2 <= |args|
      invariant i <= |args|
      invariant SortPhrases(args, express) == Then(phrases, SortPhrases(args[i..], express))
      decreases |args| - i
    {
      SortPhrasesAt(args, i, express);
      var attr := express(args[i]);
      if attr.Err? {
        return Err(attr.error);
      }
      var phrase := SortPhrase(attr.value, args[i + 1]);
      ThenAppend(phrases, phrase, SortPhrases(args[i + 2..], express));
      phrases := phrases + [phrase];
      i := i + 2;
    }
    assert phrases + [] == phrases;
    r := Ok(Oxfordcomma(phrases));
  }

  // ---------------------------------------------------------------------------
  // has_groupby_ancestor and express_aggregation_step
  // ---------------------------------------------------------------------------

  /**
   * What `has_groupby_ancestor` answers: that no ancestor of the step is a
   * groupby, so that this groupby is the innermost one.
   */
  predicate NoGroupbyAmong(plan: Plan, ancestors: seq<string>)
  {
    forall a :: a in ancestors ==> Get(plan, a).Some? ==> Get(plan, a).value.operation != "groupby"
  }

  /**
   * The early-return loop of `has_groupby_ancestor`, over the ancestors of
   * the step in the plan graph (in set iteration order); every ancestor is
   * a step of the plan.
   */
  method HasGroupbyAncestor(plan: Plan, ancestors: seq<string>) returns (b: bool)
    requires forall a :: a in ancestors ==> HasKey(plan, a)
    ensures b == NoGroupbyAmong(plan, ancestors)
    ensures !b <==> exists a :: a in ancestors && Get(plan, a).value.operation == "groupby"
  {
    for i := 0 to |ancestors|
      invariant forall k :: 0 <= k < i ==> Get(plan, ancestors[k]).value.operation != "groupby"
    {
      if StepAt(plan, ancestors[i]).value.operation == "groupby" {
        assert ancestors[i] in ancestors;
        return false;
      }
    }
    return true;
  }

  /** The expression of each argument, in order, or the first error. */
  function ExpressAll(args: seq<string>, express: string -> Result<string>): Result<seq<string>>
  {
    if args == [] then Ok([])
    else
      var e :- express(args[0]);
      Then([e], ExpressAll(args[1..], express))
  }

  lemma {:induction false} ExpressAllMeaning(args: seq<string>, express: string -> Result<string>)
    ensures ExpressAll(args, express).Ok? <==> forall k :: 0 <= k < |args| ==> express(args[k]).Ok?
    ensures ExpressAll(args, express).Ok? ==>
      && |ExpressAll(args, express).value| == |args|
      && forall k :: 0 <= k < |args| ==> ExpressAll(args, express).value[k] == express(args[k]).value
  {
    if args != [] {
      ExpressAllMeaning(args[1..], express);
      assert forall k :: 0 < k < |args| ==> args[k] == args[1..][k - 1];
    }
  }

  function GroupedBy(e: string): string
  {
    "grouped by " + e
  }

  /**
   * `express_aggregation_step`: "grouped by X" for each argument, joined
   * by spaces, for the innermost groupby; nothing for one nested in
   * another.
   */
  function ExpressAggregation(args: seq<string>, plan: Plan, ancestors: seq<string>, express: string -> Result<string>): Result<string>
  {
    if NoGroupbyAmong(plan, ancestors) then
      var es :- ExpressAll(args, express);
      Ok(Join(" ", seq(|es|, k requires 0 <= k < |es| => GroupedBy(es[k]))))
    else Ok("")
  }

  /** The words of a groupby with a groupby among its ancestors are empty; otherwise every phrase is a grouping. */
  lemma ExpressAggregationMeaning(args: seq<string>, plan: Plan, ancestors: seq<string>, express: string -> Result<string>)
    ensures !NoGroupbyAmong(plan, ancestors) ==> ExpressAggregation(args, plan, ancestors, express) == Ok("")
    ensures NoGroupbyAmong(plan, ancestors) ==>
      (ExpressAggregation(args, plan, ancestors, express).Ok? <==> forall k :: 0 <= k < |args| ==> express(args[k]).Ok?)
    ensures NoGroupbyAmong(plan, ancestors) && args != [] && ExpressAggregation(args, plan, ancestors, express).Ok? ==>
      StartsWith(ExpressAggregation(args, plan, ancestors, express).value, "grouped by " + express(args[0]).value)
  {
    ExpressAllMeaning(args, express);
    if NoGroupbyAmong(plan, ancestors) && args != [] && ExpressAll(args, express).Ok? {
      var es := ExpressAll(args, express).value;
      var gs := seq(|es|, k requires 0 <= k < |es| => GroupedBy(es[k]));
      JoinStartsWithFirst(" ", gs);
    }
  }

  // ---------------------------------------------------------------------------
  // express_arithmetic_step and express_rownum_operation
  // ---------------------------------------------------------------------------

  /**
   * The loop the two share: `{i}` is replaced by the value for argument
   * `i`, for `i` from `i` below `n` (the minimum count of the operation's
   * first operand group); a missing argument is an IndexError.
   */
  function FillFrom(statement: string, args: seq<string>, i: nat, n: nat, value: string -> Result<string>): Result<string>
    decreases n - i
  {
    if i >= n then Ok(statement)
    else if i >= |args| then Err(IndexError)
    else
      var v :- value(args[i]);
      FillFrom(Replace(statement, SlotToken(i), v), args, i + 1, n, value)
  }

  /**
   * When every value is available the loop is `ReplaceSlots` with those
   * values; so on a plain template with brace-free values it renders the
   * template with `{0}` … `{n-1}` filled.
   */
  lemma {:induction false} FillFromReplaces(statement: string, args: seq<string>, i: nat, n: nat, value: string -> Result<string>, vals: seq<string>)
    requires i <= n <= |args| && |vals| == n
    requires forall k :: i <= k < n ==> value(args[k]) == Ok(vals[k])
    ensures FillFrom(statement, args, i, n, value) == Ok(ReplaceSlots(statement, vals, i))
    decreases n - i
  {
    if i < n {
      FillFromReplaces(Replace(statement, SlotToken(i), vals[i]), args, i + 1, n, value, vals);
    }
  }

  /** The first argument whose value fails makes the loop fail with its error. */
  lemma {:induction false} FillFromFails(statement: string, args: seq<string>, i: nat, n: nat, value: string -> Result<string>, j: nat)
    requires i <= j < n <= |args| && value(args[j]).Err?
    requires forall k :: i <= k < j ==> value(args[k]).Ok?
    ensures FillFrom(statement, args, i, n, value) == Err(value(args[j]).error)
    decreases j - i
  {
    if i < j {
      FillFromFails(Replace(statement, SlotToken(i), value(args[i]).value), args, i + 1, n, value, j);
    }
  }

  /** The loop of `express_arithmetic_step` and of `express_rownum_operation`. */
  method FillPlaceholders(template: string, args: seq<string>, n: nat, value: string -> Result<string>) returns (r: Result<string>)
    ensures r == FillFrom(template, args, 0, n, value)
  {
    var statement := template;
    for i := 0 to n
      invariant FillFrom(template, args, 0, n, value) == FillFrom(statement, args, i, n, value)
    {
      if i >= |args| {
        return Err(IndexError);
      }
      var v := value(args[i]);
      if v.Err? {
        return Err(v.error);
      }
      statement := Replace(statement, SlotToken(i), v.value);
    }
    r := Ok(statement);
  }

  /** For an arithmetic step: a referenced step's words, or the argument as it is written. */
  function ArgumentText(arg: string, express: string -> Result<string>): Result<string>
  {
    if IsArgReference(arg) then express(arg) else Ok(arg)
  }

  /** `express_arithmetic_step`, on the step's arguments, its operation's template and first-group minimum. */
  method ExpressArithmeticStep(args: seq<string>, template: string, minNum: nat, express: string -> Result<string>) returns (r: Result<string>)
    ensures r == FillFrom(template, args, 0, minNum, a => ArgumentText(a, express))
  {
    r := FillPlaceholders(template, args, minNum, a => ArgumentText(a, express));
  }

  /**
   * On a plain template, with a brace-free value for every placeholder
   * below `n`, the loop renders the template with those placeholders
   * filled.
   */
  lemma FillTemplate(t: Template, args: seq<string>, value: string -> Result<string>, vals: seq<string>)
    requires Plain(t) && |vals| <= |args|
    requires forall k :: 0 <= k < |vals| ==> value(args[k]) == Ok(vals[k]) && BraceFree(vals[k])
    ensures FillFrom(Render(t), args, 0, |vals|, value) == Ok(Render(FillSlots(t, vals, 0)))
  {
    FillFromReplaces(Render(t), args, 0, |vals|, value, vals);
    ReplaceSlotsRender(t, vals, 0);
  }

  lemma FillAddTemplate(e0: string, e1: string)
    ensures Plain([Slot(0), Lit(" plus "), Slot(1)])
    ensures Render(FillSlots([Slot(0), Lit(" plus "), Slot(1)], [e0, e1], 0)) == e0 + " plus " + e1
  {
    var t := [Slot(0), Lit(" plus "), Slot(1)];
    assert BraceFree(" plus ");
    var t1 := FillSlot(t, 0, e0);
    assert t1 == [Lit(e0), Lit(" plus "), Slot(1)];
    var t2 := FillSlot(t1, 1, e1);
    assert t2 == [Lit(e0), Lit(" plus "), Lit(e1)];
    assert FillSlots(t, [e0, e1], 0) == FillSlots(t1, [e0, e1], 1) == FillSlots(t2, [e0, e1], 2) == t2;
    RenderCons(Lit(e1), []);
    RenderCons(Lit(" plus "), [Lit(e1)]);
    assert t2 == [Lit(e0)] + [Lit(" plus "), Lit(e1)];
    RenderCons(Lit(e0), [Lit(" plus "), Lit(e1)]);
  }

  lemma FillRankTemplate(e: string)
    ensures Plain([Lit("rank when "), Slot(0)])
    ensures Render(FillSlots([Lit("rank when "), Slot(0)], [e], 0)) == "rank when " + e
  {
    var t := [Lit("rank when "), Slot(0)];
    assert BraceFree("rank when ");
    var t1 := FillSlot(t, 0, e);
    assert t1 == [Lit("rank when "), Lit(e)];
    assert FillSlots(t, [e], 0) == FillSlots(t1, [e], 1) == t1;
    RenderCons(Lit(e), []);
    RenderCons(Lit("rank when "), [Lit(e)]);
  }

  /** The templates and first-group minimums of `add` and `rownum`. */
  lemma DescriptorFacts()
    ensures DescriptorOf(Add).Some? && DescriptorOf(Add).value.template == Some([Slot(0), Lit(" plus "), Slot(1)])
    ensures |DescriptorOf(Add).value.inputs| > 0 && DescriptorOf(Add).value.inputs[0].minNum == 2
    ensures DescriptorOf(Op.RowNum).Some? && DescriptorOf(Op.RowNum).value.template == Some([Lit("rank when "), Slot(0)])
    ensures |DescriptorOf(Op.RowNum).value.inputs| > 0 && DescriptorOf(Op.RowNum).value.inputs[0].minNum == 1
  {
  }

  /** The `add` template with both its placeholders filled. */
  lemma AddFill(args: seq<string>, value: string -> Result<string>, e0: string, e1: string)
    requires |args| >= 2 && value(args[0]) == Ok(e0) && value(args[1]) == Ok(e1) && BraceFree(e0) && BraceFree(e1)
    ensures DescriptorOf(Add).Some? && DescriptorOf(Add).value.template.Some? && |DescriptorOf(Add).value.inputs| > 0
    ensures FillFrom(Render(DescriptorOf(Add).value.template.value), args, 0, DescriptorOf(Add).value.inputs[0].minNum, value)
      == Ok(e0 + " plus " + e1)
  {
    DescriptorFacts();
    FillAddTemplate(e0, e1);
    FillTemplate(DescriptorOf(Add).value.template.value, args, value, [e0, e1]);
  }

  /** `add` between two referenced steps reads "X plus Y". */
  lemma ArithmeticAdd(args: seq<string>, express: string -> Result<string>, e0: string, e1: string)
    requires |args| >= 2 && express(args[0]) == Ok(e0) && express(args[1]) == Ok(e1) && BraceFree(e0) && BraceFree(e1)
    ensures DescriptorOf(Add).Some? && DescriptorOf(Add).value.template.Some? && |DescriptorOf(Add).value.inputs| > 0
    ensures IsArgReference(args[0]) && IsArgReference(args[1]) ==>
      var d := DescriptorOf(Add).value;
      FillFrom(Render(d.template.value), args, 0, d.inputs[0].minNum, a => ArgumentText(a, express)) == Ok(e0 + " plus " + e1)
  {
    DescriptorFacts();
    if IsArgReference(args[0]) && IsArgReference(args[1]) {
      AddFill(args, a => ArgumentText(a, express), e0, e1);
    }
  }

  /**
   * For a rownum step: the argument must refer to a sort step, whose words
   * are put in; anything else raises ValueError.
   */
  function RowNumArgument(plan: Plan, arg: string, express: string -> Result<string>): Result<string>
  {
    if !IsArgReference(arg) then Err(ValueError("Argument passed to 'rownum' operation is not a reference."))
    else
      var argStep :- StepAt(plan, arg);
      var op :- ResolveOperation(argStep.operation);
      if CategoryOf(op) == SortOps then ExpressSort(argStep.args, express)
      else Err(ValueError("Argument passed to 'rownum' operation is not a 'sort' operation."))
  }

  /** `express_rownum_operation`, on the step's arguments, its operation's template and first-group minimum. */
  method ExpressRowNumOperation(plan: Plan, args: seq<string>, template: string, minNum: nat, express: string -> Result<string>) returns (r: Result<string>)
    ensures r == FillFrom(template, args, 0, minNum, a => RowNumArgument(plan, a, express))
  {
    r := FillPlaceholders(template, args, minNum, a => RowNumArgument(plan, a, express));
  }

  /** An argument that refers to a sort step gives that step's words. */
  lemma RowNumArgumentSort(plan: Plan, arg: string, express: string -> Result<string>)
    requires HasKey(plan, arg) && Get(plan, arg).value.operation == "sort"
    ensures IsArgReference(arg) ==> RowNumArgument(plan, arg, express) == ExpressSort(Get(plan, arg).value.args, express)
  {
    ResolveNamed(Get(plan, arg).value.operation, Op.Sort);
  }

  /** An argument that is not a reference, or refers to a step that is not a sort, raises ValueError. */
  lemma RowNumArgumentRejects(plan: Plan, arg: string, express: string -> Result<string>)
    ensures !IsArgReference(arg) ==>
      RowNumArgument(plan, arg, express) == Err(ValueError("Argument passed to 'rownum' operation is not a reference."))
    ensures (IsArgReference(arg) && HasKey(plan, arg) && ResolveOperation(Get(plan, arg).value.operation).Ok?
      && CategoryOf(ResolveOperation(Get(plan, arg).value.operation).value) != SortOps) ==>
      RowNumArgument(plan, arg, express) == Err(ValueError("Argument passed to 'rownum' operation is not a 'sort' operation."))
  {
  }

  /** The rownum template fails with the error of its one argument. */
  lemma RowNumFails(args: seq<string>, value: string -> Result<string>)
    requires |args| >= 1 && value(args[0]).Err?
    ensures DescriptorOf(Op.RowNum).Some? && DescriptorOf(Op.RowNum).value.template.Some?
    ensures |DescriptorOf(Op.RowNum).value.inputs| > 0
    ensures FillFrom(Render(DescriptorOf(Op.RowNum).value.template.value), args, 0, DescriptorOf(Op.RowNum).value.inputs[0].minNum, value)
      == Err(value(args[0]).error)
  {
    DescriptorFacts();
    FillFromFails(Render(DescriptorOf(Op.RowNum).value.template.value), args, 0, 1, value, 0);
  }

  /** The rownum template with its one placeholder filled. */
  lemma RowNumFill(args: seq<string>, value: string -> Result<string>, e: string)
    requires |args| >= 1 && value(args[0]) == Ok(e) && BraceFree(e)
    ensures DescriptorOf(Op.RowNum).Some? && DescriptorOf(Op.RowNum).value.template.Some?
    ensures |DescriptorOf(Op.RowNum).value.inputs| > 0
    ensures FillFrom(Render(DescriptorOf(Op.RowNum).value.template.value), args, 0, DescriptorOf(Op.RowNum).value.inputs[0].minNum, value)
      == Ok("rank when " + e)
  {
    DescriptorFacts();
    FillRankTemplate(e);
    FillTemplate(DescriptorOf(Op.RowNum).value.template.value, args, value, [e]);
  }

  /**
   * `express_rownum_operation` on the `rownum` template: "rank when" and
   * the words of the sort step its argument refers to; an argument that is
   * not a reference, or not a sort, raises ValueError.
   */
  lemma RowNumMeaning(plan: Plan, args: seq<string>, express: string -> Result<string>)
    requires |args| >= 1
    ensures DescriptorOf(Op.RowNum).Some? && DescriptorOf(Op.RowNum).value.template.Some?
    ensures |DescriptorOf(Op.RowNum).value.inputs| > 0
    ensures var d := DescriptorOf(Op.RowNum).value;
      var r := FillFrom(Render(d.template.value), args, 0, d.inputs[0].minNum, a => RowNumArgument(plan, a, express));
      && (RowNumArgument(plan, args[0], express).Err? ==> r == Err(RowNumArgument(plan, args[0], express).error))
      && (RowNumArgument(plan, args[0], express).Ok? && BraceFree(RowNumArgument(plan, args[0], express).value) ==>
            r == Ok("rank when " + RowNumArgument(plan, args[0], express).value))
  {
    DescriptorFacts();
    var value := a => RowNumArgument(plan, a, express);
    var v := value(args[0]);
    if v.Err? {
      RowNumFails(args, value);
    } else if BraceFree(v.value) {
      RowNumFill(args, value, v.value);
    }
  }

  // ---------------------------------------------------------------------------
  // get_retrieval_step_name
  // ---------------------------------------------------------------------------

  /** The `retrieval_type` argument: `get_entity_name` or `get_attribute_name`. */
  datatype RetrievalType = EntityName | AttributeName

  /** Where one call of `get_retrieval_step_name` goes: to another step, or to its answer. */
  datatype Lead = Follow(ref: string) | Found(name: Option<string>)

  /**
   * One call of `get_retrieval_step_name` on a step whose operation is
   * `op`: analysis, return and groupby steps follow argument 0; a
   * `retrieve_attribute` names its attribute by argument 1 (following it
   * when it is a reference) and its entity through argument 0, or through
   * argument 1 when argument 0 is a return step; a `retrieve_entity` names
   * its entity by argument 0; every other step falls through to None.
   */
  function NextRetrieval(plan: Plan, step: Step, op: Op, kind: RetrievalType): Result<Lead>
  {
    var c := CategoryOf(op);
    if c == AnalysisOps || c == ReturnOps || c == AggregationOps then
      if |step.args| == 0 then Err(IndexError) else Ok(Follow(step.args[0]))
    else if op == RetrieveAttribute then
      if kind == AttributeName then
        if |step.args| < 2 then Err(IndexError)
        else if IsArgReference(step.args[1]) then Ok(Follow(step.args[1]))
        else Ok(Found(Some(step.args[1])))
      else if |step.args| == 0 then Err(IndexError)
      else
        var source :- StepAt(plan, step.args[0]);
        if !IsReturn(source.operation) then Ok(Follow(step.args[0]))
        else if |step.args| < 2 then Err(IndexError)
        else Ok(Follow(step.args[1]))
    else if op == RetrieveEntity && kind == EntityName then
      if |step.args| == 0 then Err(IndexError) else Ok(Found(Some(step.args[0])))
    else Ok(Found(None))
  }

  /** One call of `get_retrieval_step_name` on the step `ref`. */
  function RetrievalLead(plan: Plan, ref: string, kind: RetrievalType): Result<Lead>
  {
    var step :- StepAt(plan, ref);
    var op :- ResolveOperation(step.operation);
    NextRetrieval(plan, step, op, kind)
  }

  /** Following the leads from `ref` until one gives an answer, at most `fuel` calls deep. */
  function Chase(lead: string -> Result<Lead>, ref: string, fuel: nat): Result<Option<string>>
    decreases fuel
  {
    if fuel == 0 then Err(RecursionError)
    else
      var l :- lead(ref);
      match l
      case Follow(next) => Chase(lead, next, fuel - 1)
      case Found(name) => Ok(name)
  }

  /**
   * `get_retrieval_step_name`: the entity or attribute a step draws on,
   * or None where the method falls through. `fuel` is the depth Python's
   * recursion limit allows.
   */
  function RetrievalStepName(plan: Plan, ref: string, kind: RetrievalType, fuel: nat): Result<Option<string>>
  {
    Chase(r => RetrievalLead(plan, r, kind), ref, fuel)
  }

  /** The lead of a step whose operation is the class `op`. */
  lemma LeadOf(plan: Plan, ref: string, kind: RetrievalType, op: Op)
    requires HasKey(plan, ref) && Get(plan, ref).value.operation == NameOf(op)
    ensures RetrievalLead(plan, ref, kind) == NextRetrieval(plan, Get(plan, ref).value, op, kind)
  {
    ResolveNamed(Get(plan, ref).value.operation, op);
  }

  /** A `retrieve_entity` step names its entity by its first argument. */
  lemma RetrieveEntityName(plan: Plan, ref: string, fuel: nat)
    requires fuel > 0 && HasKey(plan, ref)
    requires Get(plan, ref).value.operation == "retrieve_entity" && |Get(plan, ref).value.args| > 0
    ensures RetrievalStepName(plan, ref, EntityName, fuel) == Ok(Some(Get(plan, ref).value.args[0]))
  {
    LeadOf(plan, ref, EntityName, RetrieveEntity);
  }

  /** A `retrieve_entity` step names no attribute. */
  lemma RetrieveEntityNoAttribute(plan: Plan, ref: string, fuel: nat)
    requires fuel > 0 && HasKey(plan, ref) && Get(plan, ref).value.operation == "retrieve_entity"
    ensures RetrievalStepName(plan, ref, AttributeName, fuel) == Ok(None)
  {
    LeadOf(plan, ref, AttributeName, RetrieveEntity);
  }

  /** A `retrieve_attribute` step names its attribute by its second argument, unless that is a reference. */
  lemma RetrieveAttributeName(plan: Plan, ref: string, fuel: nat)
    requires fuel > 0 && HasKey(plan, ref)
    requires Get(plan, ref).value.operation == "retrieve_attribute" && |Get(plan, ref).value.args| >= 2
    ensures !IsArgReference(Get(plan, ref).value.args[1]) ==>
      RetrievalStepName(plan, ref, AttributeName, fuel) == Ok(Some(Get(plan, ref).value.args[1]))
    ensures IsArgReference(Get(plan, ref).value.args[1]) ==>
      RetrievalStepName(plan, ref, AttributeName, fuel) == RetrievalStepName(plan, Get(plan, ref).value.args[1], AttributeName, fuel - 1)
  {
    LeadOf(plan, ref, AttributeName, RetrieveAttribute);
  }

  /** Analysis, return and groupby steps name what their first argument names. */
  lemma RetrievalPassesThrough(plan: Plan, ref: string, kind: RetrievalType, fuel: nat, c: Category)
    requires fuel > 0 && HasKey(plan, ref) && |Get(plan, ref).value.args| > 0
    requires c in {AnalysisOps, ReturnOps, AggregationOps} && IsOperation(c, Get(plan, ref).value.operation)
    ensures RetrievalStepName(plan, ref, kind, fuel) == RetrievalStepName(plan, Get(plan, ref).value.args[0], kind, fuel - 1)
  {
    var step := Get(plan, ref).value;
    ResolveCategory(step.operation, c);
    LeadOf(plan, ref, kind, ResolveOperation(step.operation).value);
  }

  /** Any depth that suffices gives the same answer: the recursion limit only decides whether one is found. */
  lemma {:induction false} ChaseFuel(lead: string -> Result<Lead>, ref: string, fuel: nat, more: nat)
    requires fuel <= more && Chase(lead, ref, fuel).Ok?
    ensures Chase(lead, ref, more) == Chase(lead, ref, fuel)
    decreases fuel
  {
    var l := lead(ref).value;
    if l.Follow? {
      ChaseFuel(lead, l.ref, fuel - 1, more - 1);
    }
  }

  /** A name found within the recursion limit is the name found with any larger one. */
  lemma RetrievalFuel(plan: Plan, ref: string, kind: RetrievalType, fuel: nat, more: nat)
    requires fuel <= more && RetrievalStepName(plan, ref, kind, fuel).Ok?
    ensures RetrievalStepName(plan, ref, kind, more) == RetrievalStepName(plan, ref, kind, fuel)
  {
    ChaseFuel(r => RetrievalLead(plan, r, kind), ref, fuel, more);
  }
}
