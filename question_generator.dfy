/**
 * `core/Planning/QuestionGenerator.py`: the question a plan answers, built
 * from its final return step. The words `StepExpressor` gives for single
 * steps, and the two graph queries the generator makes of networkx, are
 * the fields of a `Words` value.
 */
module QuestionGenerators {

  import opened Wrappers
  import opened Dicts
  import opened Chars
  import opened Text
  import opened OpNames
  import opened Operations
  import opened Ontology
  import opened Steps
  import opened ApiUtils
  import opened PlanningUtils
  import opened Placeholders
  import opened StepExpressors
  import opened StringOrder

  /**
   * What the generator asks of its `StepExpressor` and of the plan graph:
   * the words of a retrieval, analysis, filter, rownum, sort and limit
   * step; `nx.ancestors(graph, ref)` in iteration order; the keys of
   * `dict(nx.bfs_successors(graph, ref))`; and, for an operation class
   * whose definition is not part of this model, its template and the
   * minimum count of its first operand group.
   */
  datatype Words = Words(
    retrieval: string -> Result<string>,
    analysis: string -> Result<string>,
    filter: string -> Result<string>,
    rownum: string -> Result<string>,
    sort: string -> Result<string>,
    limit: string -> Result<string>,
    ancestors: string -> seq<string>,
    successors: string -> seq<string>,
    otherShapes: Op -> (string, nat))

  /** `step_operation.template` and `step_operation.input_args[0].min_num_args`. */
  function Shape(w: Words, op: Op): (string, nat)
  {
    match DescriptorOf(op)
    case Some(d) =>
      if d.template.Some? && |d.inputs| > 0 then (Render(d.template.value), d.inputs[0].minNum)
      else w.otherShapes(op)
    case None => w.otherShapes(op)
  }

  // ---------------------------------------------------------------------------
  // Step type checkers
  // ---------------------------------------------------------------------------

  /** `is_sort_step`, `is_collect_step`, `is_limit_step`, `is_rownum_step`: the operation name compared. */
  function IsStepNamed(plan: Plan, ref: string, name: string): (r: Result<bool>)
    ensures r.Err? <==> !HasKey(plan, ref)
    ensures r.Err? ==> r.error == KeyError(ref)
    ensures r.Ok? ==> (r.value <==> Get(plan, ref).value.operation == name)
  {
    var step :- StepAt(plan, ref);
    Ok(step.operation == name)
  }

  /** `is_arithmetic_step`, `is_return_step`, `is_retrieval_step`, `is_analysis_step`: the ontology's table. */
  function IsStepOf(plan: Plan, ref: string, c: Category): (r: Result<bool>)
    ensures r.Err? <==> !HasKey(plan, ref)
    ensures r.Err? ==> r.error == KeyError(ref)
    ensures r.Ok? ==> (r.value <==> IsOperation(c, Get(plan, ref).value.operation))
  {
    var step :- StepAt(plan, ref);
    Ok(IsOperation(c, step.operation))
  }

  /**
   * The name compared by each of the four name checkers is the one key of
   * the corresponding table, so each agrees with the table-based check.
   */
  lemma OneKey(name: string, c: Category, op: Op)
    requires Table(c) == [op] && CategoryOf(op) == c
    ensures name == NameOf(op) <==> IsOperation(c, name)
  {
    if IsOperation(c, name) {
      var o :| CategoryOf(o) == c && NameOf(o) == name;
      SmallTables(o);
      assert c !in {RetrievalOps, BooleanOps, AnalysisOps, ArithmeticOps};
    }
  }

  lemma NamedCheckersAgree(name: string)
    ensures name == "sort" <==> IsSort(name)
    ensures name == "collect" <==> IsCollect(name)
    ensures name == "limit" <==> IsLimit(name)
    ensures name == "rownum" <==> IsRowNum(name)
  {
    OneKey(name, SortOps, Op.Sort);
    OneKey(name, CollectOps, Collect);
    OneKey(name, LimitOps, Limit);
    OneKey(name, RowNumOps, Op.RowNum);
  }

  /**
   * Every step of `refs` is looked up (the list is built before `any`
   * looks at it); then whether one of them is in the table.
   */
  function AnyOf(plan: Plan, refs: seq<string>, c: Category): Result<bool>
  {
    if refs == [] then Ok(false)
    else
      var s :- StepAt(plan, refs[0]);
      var rest :- AnyOf(plan, refs[1..], c);
      Ok(IsOperation(c, s.operation) || rest)
  }

  lemma {:induction false} AnyOfMeaning(plan: Plan, refs: seq<string>, c: Category)
    ensures AnyOf(plan, refs, c).Ok? <==> forall k :: 0 <= k < |refs| ==> HasKey(plan, refs[k])
    ensures AnyOf(plan, refs, c).Ok? ==>
      (AnyOf(plan, refs, c).value <==>
        exists k :: 0 <= k < |refs| && IsOperation(c, Get(plan, refs[k]).value.operation))
  {
    if refs != [] {
      AnyOfMeaning(plan, refs[1..], c);
      assert forall k :: 0 < k < |refs| ==> refs[k] == refs[1..][k - 1];
      if AnyOf(plan, refs, c).Ok? && AnyOf(plan, refs[1..], c).value {
        var k :| 0 <= k < |refs[1..]| && IsOperation(c, Get(plan, refs[1..][k]).value.operation);
        assert IsOperation(c, Get(plan, refs[k + 1]).value.operation);
      }
    }
  }

  /**
   * `is_boolean_step` (`c` the collect table) and `is_filter_step` (`c` the
   * return table): a boolean operation with a step of that table among
   * the steps reached from it.
   */
  function IsBooleanFeeding(plan: Plan, ref: string, w: Words, c: Category): Result<bool>
  {
    var step :- StepAt(plan, ref);
    if !IsBoolean(step.operation) then Ok(false) else AnyOf(plan, w.successors(ref), c)
  }

  function IsBooleanStep(plan: Plan, ref: string, w: Words): Result<bool>
  {
    IsBooleanFeeding(plan, ref, w, CollectOps)
  }

  function IsFilterStep(plan: Plan, ref: string, w: Words): Result<bool>
  {
    IsBooleanFeeding(plan, ref, w, ReturnOps)
  }

  /**
   * A boolean step is a boolean operation from which a collect step is
   * reached, a filter step one from which a return step is reached; a
   * step that is not boolean is neither, without looking further.
   */
  lemma BooleanFeedingMeaning(plan: Plan, ref: string, w: Words, c: Category)
    requires HasKey(plan, ref) && forall k :: 0 <= k < |w.successors(ref)| ==> HasKey(plan, w.successors(ref)[k])
    ensures IsBooleanFeeding(plan, ref, w, c).Ok?
    ensures IsBooleanFeeding(plan, ref, w, c).value <==>
      IsBoolean(Get(plan, ref).value.operation) &&
      exists k :: 0 <= k < |w.successors(ref)| && IsOperation(c, Get(plan, w.successors(ref)[k]).value.operation)
  {
    AnyOfMeaning(plan, w.successors(ref), c);
  }

  lemma NotBooleanNotFeeding(plan: Plan, ref: string, w: Words, c: Category)
    requires HasKey(plan, ref) && !IsBoolean(Get(plan, ref).value.operation)
    ensures IsBooleanFeeding(plan, ref, w, c) == Ok(false)
  {
  }

  // ---------------------------------------------------------------------------
  // express_step_prefix
  // ---------------------------------------------------------------------------

  /** The last three branches of `express_step_prefix`. */
  function PlainPrefix(op: string): (p: string)
    ensures p == "what is" <==> IsArithmetic(op)
    ensures p == "limited to the" <==> op == "limit"
  {
    if IsArithmetic(op) then "what is"
    else if op == "limit" then "limited to the"
    else "what is the"
  }

  /**
   * `express_step_prefix`: the words put before a step's expression. A
   * retrieval from a return step takes the prefix of its attribute
   * argument; the recursion is bounded by `fuel`.
   */
  function Prefix(plan: Plan, ref: string, w: Words, fuel: nat): Result<string>
    decreases fuel
  {
    if fuel == 0 then Err(RecursionError)
    else
      var b :- IsBooleanStep(plan, ref, w);
      if b then Ok("is the")
      else
        var s :- StepAt(plan, ref);
        if s.operation == "sort" then Ok("for")
        else if IsRetrieval(s.operation) then
          if |s.args| == 0 then Err(IndexError)
          else
            var ret :- IsStepOf(plan, s.args[0], ReturnOps);
            if !ret then Ok(PlainPrefix(s.operation))
            else if |s.args| < 2 then Err(IndexError)
            else Prefix(plan, s.args[1], w, fuel - 1)
        else Ok(PlainPrefix(s.operation))
  }

  /** The five prefixes, and nothing else, can come out. */
  predicate IsPrefixPhrase(p: string)
  {
    p in {"is the", "for", "what is", "limited to the", "what is the"}
  }

  lemma {:induction false} PrefixPhrases(plan: Plan, ref: string, w: Words, fuel: nat)
    ensures Prefix(plan, ref, w, fuel).Ok? ==> IsPrefixPhrase(Prefix(plan, ref, w, fuel).value)
    decreases fuel
  {
    if fuel > 0 && HasKey(plan, ref) {
      var s := Get(plan, ref).value;
      if IsRetrieval(s.operation) && |s.args| >= 2 {
        PrefixPhrases(plan, s.args[1], w, fuel - 1);
      }
    }
  }

  /**
   * A sort step reads "for …", a limit step "limited to the …", an
   * arithmetic step "what is …"; none of them is boolean, so the first
   * branch never takes them.
   */
  lemma PrefixOfKinds(plan: Plan, ref: string, w: Words, fuel: nat)
    requires fuel > 0 && HasKey(plan, ref)
    ensures Get(plan, ref).value.operation == "sort" ==> Prefix(plan, ref, w, fuel) == Ok("for")
    ensures Get(plan, ref).value.operation == "limit" ==> Prefix(plan, ref, w, fuel) == Ok("limited to the")
    ensures IsArithmetic(Get(plan, ref).value.operation) ==> Prefix(plan, ref, w, fuel) == Ok("what is")
  {
    var op := Get(plan, ref).value.operation;
    if op == "sort" || op == "limit" || IsArithmetic(op) {
      assert !IsBoolean(op) by {
        if IsBoolean(op) {
          NamedCheckersAgree(op);
          if IsArithmetic(op) {
            IsOperationUnique(BooleanOps, ArithmeticOps, op);
          } else if op == "sort" {
            IsOperationUnique(BooleanOps, SortOps, op);
          } else {
            IsOperationUnique(BooleanOps, LimitOps, op);
          }
        }
      }
      assert !IsRetrieval(op) by {
        if IsRetrieval(op) {
          NamedCheckersAgree(op);
          if IsArithmetic(op) {
            IsOperationUnique(RetrievalOps, ArithmeticOps, op);
          } else if op == "sort" {
            IsOperationUnique(RetrievalOps, SortOps, op);
          } else {
            IsOperationUnique(RetrievalOps, LimitOps, op);
          }
        }
      }
    }
  }

  /** A retrieval from a return step reads as its attribute argument does, one level down. */
  lemma PrefixThroughReturn(plan: Plan, ref: string, w: Words, fuel: nat)
    requires fuel > 0 && HasKey(plan, ref)
    requires IsRetrieval(Get(plan, ref).value.operation) && |Get(plan, ref).value.args| >= 2
    requires HasKey(plan, Get(plan, ref).value.args[0]) && IsReturn(Get(plan, Get(plan, ref).value.args[0]).value.operation)
    ensures Prefix(plan, ref, w, fuel) == Prefix(plan, Get(plan, ref).value.args[1], w, fuel - 1)
  {
    var op := Get(plan, ref).value.operation;
    assert !IsBoolean(op) by {
      if IsBoolean(op) {
        IsOperationUnique(BooleanOps, RetrievalOps, op);
      }
    }
    ReturnIsReturn(Get(plan, Get(plan, ref).value.args[0]).value.operation);
    assert op != "sort" by {
      if op == "sort" {
        NamedCheckersAgree(op);
        IsOperationUnique(SortOps, RetrievalOps, op);
      }
    }
  }

  // ---------------------------------------------------------------------------
  // get_return_filter_ancestors
  // ---------------------------------------------------------------------------

  /** The boolean steps among the arguments of an ancestor return step, in order. */
  function BooleanArgs(plan: Plan, args: seq<string>): Result<seq<string>>
  {
    if args == [] then Ok([])
    else
      var s :- StepAt(plan, args[0]);
      var _ :- ResolveOperation(s.operation);
      var rest := BooleanArgs(plan, args[1..]);
      if IsBoolean(s.operation) then Then([args[0]], rest) else rest
  }

  /** What one ancestor adds: the boolean arguments of a return step, nothing for another step. */
  function Contribution(plan: Plan, ancestor: string): Result<seq<string>>
  {
    var s :- StepAt(plan, ancestor);
    if s.operation == "return" then BooleanArgs(plan, s.args) else Ok([])
  }

  /** The list the loop over the ancestors builds, before it is sorted. */
  function ReturnFilters(plan: Plan, ancestors: seq<string>): Result<seq<string>>
  {
    if ancestors == [] then Ok([])
    else
      var c :- Contribution(plan, ancestors[0]);
      Then(c, ReturnFilters(plan, ancestors[1..]))
  }

  /** `get_return_filter_ancestors`: the boolean arguments of the ancestor return steps, sorted in reverse. */
  function ReturnFilterAncestors(plan: Plan, ancestors: seq<string>): Result<seq<string>>
  {
    var fs :- ReturnFilters(plan, ancestors);
    Ok(SortDescending(fs))
  }

  lemma {:induction false} ReturnFiltersAppend(plan: Plan, xs: seq<string>, ys: seq<string>)
    ensures ReturnFilters(plan, xs + ys).Ok? <==> ReturnFilters(plan, xs).Ok? && ReturnFilters(plan, ys).Ok?
    ensures ReturnFilters(plan, xs + ys).Ok? ==>
      ReturnFilters(plan, xs + ys).value == ReturnFilters(plan, xs).value + ReturnFilters(plan, ys).value
  {
    if xs == [] {
      assert xs + ys == ys;
    } else {
      assert (xs + ys)[0] == xs[0] && (xs + ys)[1..] == xs[1..] + ys;
      ReturnFiltersAppend(plan, xs[1..], ys);
      if ReturnFilters(plan, xs + ys).Ok? {
        assert Contribution(plan, xs[0]).value + (ReturnFilters(plan, xs[1..]).value + ReturnFilters(plan, ys).value)
          == (Contribution(plan, xs[0]).value + ReturnFilters(plan, xs[1..]).value) + ReturnFilters(plan, ys).value;
      }
    }
  }

  lemma ReturnFiltersSingle(plan: Plan, x: string)
    ensures ReturnFilters(plan, [x]) == Contribution(plan, x)
  {
    assert [x][1..] == [];
    if Contribution(plan, x).Ok? {
      assert Contribution(plan, x).value + [] == Contribution(plan, x).value;
    }
  }

  /**
   * The ancestors' order changes which error is raised, never whether one
   * is, nor the elements collected.
   */
  lemma {:induction false} ReturnFiltersPermuted(plan: Plan, xs: seq<string>, ys: seq<string>)
    requires multiset(xs) == multiset(ys)
    ensures ReturnFilters(plan, xs).Ok? <==> ReturnFilters(plan, ys).Ok?
    ensures ReturnFilters(plan, xs).Ok? ==>
      multiset(ReturnFilters(plan, xs).value) == multiset(ReturnFilters(plan, ys).value)
    decreases |xs|
  {
    if xs == [] {
      assert |ys| == |multiset(ys)| == 0;
    } else {
      var x := xs[0];
      assert x in multiset(ys);
      var k :| 0 <= k < |ys| && ys[k] == x;
      var rest := ys[..k] + ys[k + 1..];
      PermutedTail(xs, ys, k);
      ReturnFiltersPermuted(plan, xs[1..], rest);
      ReturnFiltersPick(plan, xs, 0);
      assert xs[..0] + xs[1..] == xs[1..];
      ReturnFiltersPick(plan, ys, k);
    }
  }

  /** Taking the same element out of two permutations of each other leaves permutations. */
  lemma PermutedTail(xs: seq<string>, ys: seq<string>, k: nat)
    requires xs != [] && k < |ys| && ys[k] == xs[0] && multiset(xs) == multiset(ys)
    ensures multiset(xs[1..]) == multiset(ys[..k] + ys[k + 1..])
  {
    var x := xs[0];
    assert ys == ys[..k] + [x] + ys[k + 1..];
    assert xs == [x] + xs[1..];
    var rest := ys[..k] + ys[k + 1..];
    assert multiset(ys) == multiset(ys[..k]) + multiset{x} + multiset(ys[k + 1..]);
    assert multiset(xs) == multiset{x} + multiset(xs[1..]);
    assert multiset(rest) == multiset(ys[..k]) + multiset(ys[k + 1..]);
    forall z ensures multiset(xs[1..])[z] == multiset(rest)[z] {
      assert multiset(xs)[z] == multiset{x}[z] + multiset(xs[1..])[z];
      assert multiset(ys)[z] == multiset{x}[z] + multiset(rest)[z];
    }
  }

  /** One ancestor taken out of the list: its contribution plus the rest's, as a multiset. */
  lemma ReturnFiltersPick(plan: Plan, ys: seq<string>, k: nat)
    requires k < |ys|
    ensures ReturnFilters(plan, ys).Ok? <==> Contribution(plan, ys[k]).Ok? && ReturnFilters(plan, ys[..k] + ys[k + 1..]).Ok?
    ensures ReturnFilters(plan, ys).Ok? ==>
      multiset(ReturnFilters(plan, ys).value) ==
        multiset(Contribution(plan, ys[k]).value) + multiset(ReturnFilters(plan, ys[..k] + ys[k + 1..]).value)
  {
    var a, b := ys[..k], ys[k + 1..];
    assert ys == a + ([ys[k]] + b);
    ReturnFiltersAppend(plan, a, [ys[k]] + b);
    ReturnFiltersAppend(plan, [ys[k]], b);
    ReturnFiltersSingle(plan, ys[k]);
    ReturnFiltersAppend(plan, a, b);
  }

  /**
   * The reverse sort makes the result independent of the order in which
   * the set of ancestors is iterated.
   */
  lemma ReturnFilterAncestorsDeterministic(plan: Plan, xs: seq<string>, ys: seq<string>)
    requires multiset(xs) == multiset(ys)
    ensures ReturnFilterAncestors(plan, xs).Ok? <==> ReturnFilterAncestors(plan, ys).Ok?
    ensures ReturnFilterAncestors(plan, xs).Ok? ==> ReturnFilterAncestors(plan, xs) == ReturnFilterAncestors(plan, ys)
    ensures ReturnFilterAncestors(plan, xs).Ok? ==> Descending(ReturnFilterAncestors(plan, xs).value)
  {
    ReturnFiltersPermuted(plan, xs, ys);
    if ReturnFilters(plan, xs).Ok? {
      SortDescendingMeaning(ReturnFilters(plan, xs).value, ReturnFilters(plan, ys).value);
    }
  }

  /** Every argument collected is one of the arguments, and names a boolean step. */
  lemma {:induction false} BooleanArgsSound(plan: Plan, args: seq<string>)
    ensures BooleanArgs(plan, args).Ok? ==> forall x :: x in BooleanArgs(plan, args).value ==>
      x in args && HasKey(plan, x) && IsBoolean(Get(plan, x).value.operation)
  {
    var r := BooleanArgs(plan, args);
    if args != [] && r.Ok? {
      var rest := BooleanArgs(plan, args[1..]);
      BooleanArgsSound(plan, args[1..]);
      assert HasKey(plan, args[0]);
      assert rest.Ok?;
      forall x | x in r.value
        ensures x in args && HasKey(plan, x) && IsBoolean(Get(plan, x).value.operation)
      {
        if x != args[0] || !IsBoolean(Get(plan, args[0]).value.operation) {
          assert x in rest.value;
          assert x in args[1..];
        }
      }
    }
  }

  /** Every argument that names a boolean step is collected, when nothing fails. */
  lemma {:induction false} BooleanArgsComplete(plan: Plan, args: seq<string>)
    ensures BooleanArgs(plan, args).Ok? ==> forall k :: 0 <= k < |args| && HasKey(plan, args[k]) && IsBoolean(Get(plan, args[k]).value.operation) ==>
      args[k] in BooleanArgs(plan, args).value
  {
    var r := BooleanArgs(plan, args);
    if args != [] && r.Ok? {
      var rest := BooleanArgs(plan, args[1..]);
      BooleanArgsComplete(plan, args[1..]);
      assert HasKey(plan, args[0]);
      assert rest.Ok?;
      var b := IsBoolean(Get(plan, args[0]).value.operation);
      assert r.value == if b then [args[0]] + rest.value else rest.value;
      forall k | 0 <= k < |args| && HasKey(plan, args[k]) && IsBoolean(Get(plan, args[k]).value.operation)
        ensures args[k] in r.value
      {
        if k > 0 {
          assert args[k] == args[1..][k - 1];
          assert args[k] in rest.value;
        }
      }
    }
  }

  /** One step of `BooleanArgs` from position `i`. */
  lemma BooleanArgsAt(plan: Plan, args: seq<string>, i: nat)
    requires i < |args|
    ensures var r := BooleanArgs(plan, args[i..]);
      && (!HasKey(plan, args[i]) ==> r == Err(KeyError(args[i])))
      && (HasKey(plan, args[i]) && ResolveOperation(Get(plan, args[i]).value.operation).Err? ==>
            r == Err(ResolveOperation(Get(plan, args[i]).value.operation).error))
      && (HasKey(plan, args[i]) && ResolveOperation(Get(plan, args[i]).value.operation).Ok? ==>
            r == if IsBoolean(Get(plan, args[i]).value.operation) then Then([args[i]], BooleanArgs(plan, args[i + 1..]))
                 else BooleanArgs(plan, args[i + 1..]))
  {
    assert args[i..][0] == args[i] && args[i..][1..] == args[i + 1..];
  }

  /** One step of `ReturnFilters` from position `i`. */
  lemma ReturnFiltersAt(plan: Plan, ancestors: seq<string>, i: nat)
    requires i < |ancestors|
    ensures var r := ReturnFilters(plan, ancestors[i..]);
      && (!HasKey(plan, ancestors[i]) ==> r == Err(KeyError(ancestors[i])))
      && (HasKey(plan, ancestors[i]) && Get(plan, ancestors[i]).value.operation != "return" ==>
            r == ReturnFilters(plan, ancestors[i + 1..]))
      && (HasKey(plan, ancestors[i]) && Get(plan, ancestors[i]).value.operation == "return" ==>
            var b := BooleanArgs(plan, Get(plan, ancestors[i]).value.args);
            r == if b.Err? then Err(b.error) else Then(b.value, ReturnFilters(plan, ancestors[i + 1..])))
  {
    assert ancestors[i..][0] == ancestors[i] && ancestors[i..][1..] == ancestors[i + 1..];
    ThenEmpty(ReturnFilters(plan, ancestors[i + 1..]));
  }

  /** The loop over one return step's arguments. */
  method CollectBooleanArgs(plan: Plan, args: seq<string>) returns (r: Result<seq<string>>)
    ensures r == BooleanArgs(plan, args)
  {
    var refs := [];
    var i := 0;
    assert args[0..] == args;
    ThenEmpty(BooleanArgs(plan, args));
    while i < |args|
      invariant 0 <= i <= |args|
      invariant BooleanArgs(plan, args) == Then(refs, BooleanArgs(plan, args[i..]))
    {
      BooleanArgsAt(plan, args, i);
      var s := StepAt(plan, args[i]);
      if s.Err? {
        return Err(s.error);
      }
      var op := ResolveOperation(s.value.operation);
      if op.Err? {
        assert BooleanArgs(plan, args[i..]) == Err(op.error);
        return Err(op.error);
      }
      if IsBoolean(s.value.operation) {
        ThenAppend(refs, args[i], BooleanArgs(plan, args[i + 1..]));
        refs := refs + [args[i]];
      }
      i := i + 1;
    }
    assert args[i..] == [] && refs + [] == refs;
    r := Ok(refs);
  }

  /** `get_return_filter_ancestors`, on the ancestors in the order the set yields them. */
  method GetReturnFilterAncestors(plan: Plan, ancestors: seq<string>) returns (r: Result<seq<string>>)
    ensures r == ReturnFilterAncestors(plan, ancestors)
  {
    var refs := [];
    var i := 0;
    assert ancestors[0..] == ancestors;
    ThenEmpty(ReturnFilters(plan, ancestors));
    while i < |ancestors|
      invariant 0 <= i <= |ancestors|
      invariant ReturnFilters(plan, ancestors) == Then(refs, ReturnFilters(plan, ancestors[i..]))
    {
      ReturnFiltersAt(plan, ancestors, i);
      var s := StepAt(plan, ancestors[i]);
      if s.Err? {
        return Err(s.error);
      }
      if s.value.operation == "return" {
        var more := CollectBooleanArgs(plan, s.value.args);
        if more.Err? {
          return Err(more.error);
        }
        ThenConcat(refs, more.value, ReturnFilters(plan, ancestors[i + 1..]));
        refs := refs + more.value;
      }
      i := i + 1;
    }
    assert ancestors[i..] == [] && refs + [] == refs;
    r := Ok(SortDescending(refs));
  }

  lemma ThenEmpty<T>(r: Result<seq<T>>)
    ensures Then([], r) == r
  {
    if r.Ok? {
      assert [] + r.value == r.value;
    }
  }

  lemma ThenConcat<T>(front: seq<T>, more: seq<T>, r: Result<seq<T>>)
    ensures Then(front, Then(more, r)) == Then(front + more, r)
  {
    if r.Ok? {
      assert front + (more + r.value) == (front + more) + r.value;
    }
  }

  // ---------------------------------------------------------------------------
  // express_*_step_with_filters
  // ---------------------------------------------------------------------------

  /**
   * `express_retrieval_step_with_filters`, `express_analysis_step_with_filters`
   * and `express_rownum_step_with_filters`: the step's own words, followed
   * by "for" and the words of every ancestor filter and every filter of the
   * final return joined by "and". (The retrieval and rownum forms add
   * `" " + "for "`, the analysis form `" for "`: the same text.)
   */
  function WithFilters(plan: Plan, ref: string, filters: seq<string>, w: Words, base: string -> Result<string>): Result<string>
  {
    var ancestorFilters :- ReturnFilterAncestors(plan, w.ancestors(ref));
    var all := ancestorFilters + filters;
    if |all| > 0 then
      var exprs :- ExpressAll(all, w.filter);
      var b :- base(ref);
      Ok(b + " for " + Join(" and ", exprs))
    else base(ref)
  }

  /**
   * With no filter anywhere a step reads as its own words; otherwise as
   * its words, "for", and one phrase per filter (the ancestors' first, in
   * reverse order, then the final return's in the order given).
   */
  lemma WithFiltersMeaning(plan: Plan, ref: string, filters: seq<string>, w: Words, base: string -> Result<string>)
    requires ReturnFilterAncestors(plan, w.ancestors(ref)).Ok?
    ensures var all := ReturnFilterAncestors(plan, w.ancestors(ref)).value + filters;
      && (all == [] ==> WithFilters(plan, ref, filters, w, base) == base(ref))
      && (all != [] ==>
            (WithFilters(plan, ref, filters, w, base).Ok? <==>
               (forall k :: 0 <= k < |all| ==> w.filter(all[k]).Ok?) && base(ref).Ok?))
      && (all != [] && WithFilters(plan, ref, filters, w, base).Ok? ==>
            exists exprs: seq<string> ::
              && |exprs| == |all|
              && (forall k :: 0 <= k < |all| ==> exprs[k] == w.filter(all[k]).value)
              && WithFilters(plan, ref, filters, w, base).value == base(ref).value + " for " + Join(" and ", exprs))
  {
    var all := ReturnFilterAncestors(plan, w.ancestors(ref)).value + filters;
    ExpressAllMeaning(all, w.filter);
    if all != [] && WithFilters(plan, ref, filters, w, base).Ok? {
      var exprs := ExpressAll(all, w.filter).value;
      assert WithFilters(plan, ref, filters, w, base).value == base(ref).value + " for " + Join(" and ", exprs);
    }
  }

  /** What `is_retrieval_step` … `is_rownum_step` select, in the order they are tried. */
  datatype Kind = RetrievalKind | AnalysisKind | BooleanKind | ArithmeticKind | RowNumKind

  /** The if-chain that picks the `*_with_filters` expression of a referenced step; none matches: `None`. */
  function KindOf(plan: Plan, ref: string, w: Words): Result<Option<Kind>>
  {
    var s :- StepAt(plan, ref);
    if IsRetrieval(s.operation) then Ok(Some(RetrievalKind))
    else if IsAnalysis(s.operation) then Ok(Some(AnalysisKind))
    else
      var b :- IsBooleanStep(plan, ref, w);
      if b then Ok(Some(BooleanKind))
      else if IsArithmetic(s.operation) then Ok(Some(ArithmeticKind))
      else if s.operation == "rownum" then Ok(Some(RowNumKind))
      else Ok(None)
  }

  /** A step's table settles its kind, except that a boolean operation needs a collect step after it. */
  lemma KindOfTables(plan: Plan, ref: string, w: Words)
    requires HasKey(plan, ref)
    ensures var op := Get(plan, ref).value.operation;
      && (IsRetrieval(op) <==> KindOf(plan, ref, w) == Ok(Some(RetrievalKind)))
      && (IsAnalysis(op) <==> KindOf(plan, ref, w) == Ok(Some(AnalysisKind)))
      && (IsArithmetic(op) ==> KindOf(plan, ref, w) == Ok(Some(ArithmeticKind)))
      && (op == "rownum" ==> KindOf(plan, ref, w) == Ok(Some(RowNumKind)))
      && (KindOf(plan, ref, w) == Ok(Some(BooleanKind)) ==> IsBoolean(op))
  {
    var op := Get(plan, ref).value.operation;
    NamedCheckersAgree(op);
    if IsRetrieval(op) && IsAnalysis(op) {
      IsOperationUnique(RetrievalOps, AnalysisOps, op);
    }
    if IsArithmetic(op) && (IsRetrieval(op) || IsAnalysis(op) || IsBoolean(op)) {
      if IsRetrieval(op) { IsOperationUnique(RetrievalOps, ArithmeticOps, op); }
      if IsAnalysis(op) { IsOperationUnique(AnalysisOps, ArithmeticOps, op); }
      if IsBoolean(op) { IsOperationUnique(BooleanOps, ArithmeticOps, op); }
    }
    if op == "rownum" && (IsRetrieval(op) || IsAnalysis(op) || IsBoolean(op) || IsArithmetic(op)) {
      if IsRetrieval(op) { IsOperationUnique(RetrievalOps, RowNumOps, op); }
      if IsAnalysis(op) { IsOperationUnique(AnalysisOps, RowNumOps, op); }
      if IsBoolean(op) { IsOperationUnique(BooleanOps, RowNumOps, op); }
      if IsArithmetic(op) { IsOperationUnique(ArithmeticOps, RowNumOps, op); }
    }
  }

  /**
   * The loop of the arithmetic and comparison expressions: `{i}` for `i`
   * below `n` replaced by the value for argument `i`; a value of `None`
   * (a reference to a step of no kind) leaves `{i}` in place.
   */
  function FillSkip(statement: string, args: seq<string>, i: nat, n: nat, value: string -> Result<Option<string>>): Result<string>
    decreases n - i
  {
    if i >= n then Ok(statement)
    else if i >= |args| then Err(IndexError)
    else
      var v :- value(args[i]);
      var next := if v.Some? then Replace(statement, SlotToken(i), v.value) else statement;
      FillSkip(next, args, i + 1, n, value)
  }

  /** When no value is `None` the loop is the one of `StepExpressor`. */
  lemma {:induction false} FillSkipFills(statement: string, args: seq<string>, i: nat, n: nat,
                                        value: string -> Result<Option<string>>, text: string -> Result<string>)
    requires forall k :: i <= k < n && k < |args| ==>
      (value(args[k]).Ok? <==> text(args[k]).Ok?) &&
      (value(args[k]).Ok? ==> value(args[k]).value == Some(text(args[k]).value)) &&
      (value(args[k]).Err? ==> value(args[k]).error == text(args[k]).error)
    ensures FillSkip(statement, args, i, n, value) == FillFrom(statement, args, i, n, text)
    decreases n - i
  {
    if i < n && i < |args| && value(args[i]).Ok? {
      FillSkipFills(Replace(statement, SlotToken(i), text(args[i]).value), args, i + 1, n, value, text);
    }
  }

  /** Arguments of no kind leave the template as it is. */
  lemma {:induction false} FillSkipNone(statement: string, args: seq<string>, i: nat, n: nat, value: string -> Result<Option<string>>)
    requires n <= |args| && forall k :: i <= k < n ==> value(args[k]) == Ok(None)
    ensures FillSkip(statement, args, i, n, value) == Ok(statement)
    decreases n - i
  {
    if i < n {
      FillSkipNone(statement, args, i + 1, n, value);
    }
  }

  /**
   * The words of a step referred to from an arithmetic or comparison
   * step, or the literal argument itself.
   */
  function ArgValue(plan: Plan, arg: string, filters: seq<string>, w: Words, fuel: nat): Result<Option<string>>
    decreases fuel, 3
  {
    if !IsArgReference(arg) then Ok(Some(arg))
    else
      var kind :- KindOf(plan, arg, w);
      match kind
      case None => Ok(None)
      case Some(k) =>
        var p :- Phrase(plan, k, arg, filters, w, fuel);
        Ok(Some(p))
  }

  /** The `*_with_filters` expression of each kind; the recursive two spend fuel. */
  function Phrase(plan: Plan, k: Kind, ref: string, filters: seq<string>, w: Words, fuel: nat): Result<string>
    decreases fuel, 2
  {
    match k
    case RetrievalKind => WithFilters(plan, ref, filters, w, w.retrieval)
    case AnalysisKind => WithFilters(plan, ref, filters, w, w.analysis)
    case RowNumKind => WithFilters(plan, ref, filters, w, w.rownum)
    case BooleanKind => BooleanWithFilters(plan, ref, filters, w, fuel)
    case ArithmeticKind => ArithmeticWithFilters(plan, ref, filters, w, fuel)
  }

  /** `express_boolean_step_with_filters`, on the step and the operation its name resolves to. */
  function BooleanWithFilters(plan: Plan, ref: string, filters: seq<string>, w: Words, fuel: nat): Result<string>
    decreases fuel, 1
  {
    if fuel == 0 then Err(RecursionError)
    else
      var s :- StepAt(plan, ref);
      var op :- ResolveOperation(s.operation);
      BooleanOf(plan, s.args, op, filters, w, fuel - 1)
  }

  /** `express_arithmetic_step_with_filters`: the template filled as a comparison's is. */
  function ArithmeticWithFilters(plan: Plan, ref: string, filters: seq<string>, w: Words, fuel: nat): Result<string>
    decreases fuel, 1
  {
    if fuel == 0 then Err(RecursionError)
    else
      var s :- StepAt(plan, ref);
      var op :- ResolveOperation(s.operation);
      FillSkip(Shape(w, op).0, s.args, 0, Shape(w, op).1, ArgValues(plan, filters, w, fuel - 1))
  }

  /** The boolean words of each argument, one level of fuel down. */
  function SubBoolean(plan: Plan, filters: seq<string>, w: Words, fuel: nat): string -> Result<string>
    decreases fuel, 5
  {
    a => BooleanWithFilters(plan, a, filters, w, fuel)
  }

  /** The value of each argument put into a template, one level of fuel down. */
  function ArgValues(plan: Plan, filters: seq<string>, w: Words, fuel: nat): string -> Result<Option<string>>
    decreases fuel, 5
  {
    a => ArgValue(plan, a, filters, w, fuel)
  }

  /** The names of the boolean operations that compare a value with another. */
  predicate IsEquality(name: string)
  {
    name in {"greaterthan", "lessthan", "greaterthan_eq", "lessthan_eq", "exact", "contains"}
  }

  /**
   * The branches of `express_boolean_step_with_filters`. "and" and "or"
   * join the words of their arguments, "not" prefixes them; a comparison
   * fills its template when its first argument is a reference, and
   * otherwise gives `None`, which every caller then uses as a string:
   * modelled as the TypeError it leads to.
   */
  function BooleanOf(plan: Plan, args: seq<string>, op: Op, filters: seq<string>, w: Words, fuel: nat): Result<string>
    decreases fuel, 6
  {
    var name := NameOf(op);
    if name == "and" || name == "or" then
      var parts :- ExpressAll(args, SubBoolean(plan, filters, w, fuel));
      Ok(Join(" " + name + " ", parts))
    else if name == "not" then
      var parts :- ExpressAll(args, SubBoolean(plan, filters, w, fuel));
      Ok("not " + Join(" ", parts))
    else if IsEquality(name) then
      if |args| == 0 then Err(IndexError)
      else if IsArgReference(args[0]) then
        FillSkip(Shape(w, op).0, args, 0, Shape(w, op).1, ArgValues(plan, filters, w, fuel))
      else Err(TypeError("comparison whose first argument is not a reference has no words"))
    else Err(NotImplementedError("Unhandled filter operation type to resolve: '" + name + "'"))
  }

  /** A boolean step is expressed by the branch of the operation its name resolves to. */
  lemma BooleanResolves(plan: Plan, ref: string, filters: seq<string>, w: Words, fuel: nat, op: Op)
    requires fuel > 0 && HasKey(plan, ref) && NameOf(op) == Get(plan, ref).value.operation
    ensures BooleanWithFilters(plan, ref, filters, w, fuel) == BooleanOf(plan, Get(plan, ref).value.args, op, filters, w, fuel - 1)
  {
    ResolveNamed(Get(plan, ref).value.operation, op);
  }

  /**
   * Every boolean operation has a branch, and no other operation has one:
   * the others raise NotImplementedError.
   */
  lemma BooleanHandled(plan: Plan, args: seq<string>, op: Op, filters: seq<string>, w: Words, fuel: nat)
    ensures CategoryOf(op) == BooleanOps <==> NameOf(op) in {"and", "or", "not"} || IsEquality(NameOf(op))
    ensures CategoryOf(op) != BooleanOps ==>
      (BooleanOf(plan, args, op, filters, w, fuel)
        == Err(NotImplementedError("Unhandled filter operation type to resolve: '" + NameOf(op) + "'")))
  {
    if CategoryOf(op) == BooleanOps {
      BooleanNames(op);
    } else {
      OtherNames(op);
    }
  }

  /** The boolean operations are named "and", "or", "not" or a comparison. */
  lemma BooleanNames(op: Op)
    requires CategoryOf(op) == BooleanOps
    ensures NameOf(op) in {"and", "or", "not"} || IsEquality(NameOf(op))
  {
  }

  /** No other operation has one of those names. */
  lemma OtherNames(op: Op)
    requires CategoryOf(op) != BooleanOps
    ensures NameOf(op) !in {"and", "or", "not"} && !IsEquality(NameOf(op))
  {
  }

  /**
   * "and" and "or" give the words of every argument, joined by the
   * operation's name; "not" puts "not" before the words of its arguments.
   */
  lemma BooleanJoins(plan: Plan, args: seq<string>, op: Op, filters: seq<string>, w: Words, fuel: nat)
    requires op == And || op == Or || op == Not
    ensures var sub := SubBoolean(plan, filters, w, fuel);
      var r := BooleanOf(plan, args, op, filters, w, fuel);
      && (r.Ok? <==> forall k :: 0 <= k < |args| ==> sub(args[k]).Ok?)
      && (r.Ok? ==>
            var parts := seq(|args|, k requires 0 <= k < |args| => sub(args[k]).value);
            r.value == (if op == Not then "not " + Join(" ", parts) else Join(" " + NameOf(op) + " ", parts)))
  {
    var sub := SubBoolean(plan, filters, w, fuel);
    ExpressAllMeaning(args, sub);
    if ExpressAll(args, sub).Ok? {
      var parts := seq(|args|, k requires 0 <= k < |args| => sub(args[k]).value);
      assert ExpressAll(args, sub).value == parts;
    }
  }

  /** A comparison whose first argument is a literal has no words. */
  lemma ComparisonOfLiteral(plan: Plan, args: seq<string>, op: Op, filters: seq<string>, w: Words, fuel: nat)
    requires IsEquality(NameOf(op)) && |args| > 0
    ensures !IsArgReference(args[0]) ==>
      BooleanOf(plan, args, op, filters, w, fuel) ==
        Err(TypeError("comparison whose first argument is not a reference has no words"))
  {
    EqualityNotConnective(NameOf(op));
  }

  /** The comparison names are none of "and", "or" and "not". */
  lemma EqualityNotConnective(name: string)
    requires IsEquality(name)
    ensures name != "and" && name != "or" && name != "not"
  {
    assert |name| >= 5;
  }

  /**
   * `lessthan_eq` between a referenced step, with words `e`, and a
   * literal reads "e less than or equal to v".
   */
  lemma LessThanEqWords(plan: Plan, args: seq<string>, filters: seq<string>, w: Words, fuel: nat, e: string)
    requires |args| >= 2 && IsArgReference(args[0]) && !IsArgReference(args[1])
    requires BraceFree(e) && BraceFree(args[1]) && ArgValue(plan, args[0], filters, w, fuel) == Ok(Some(e))
    ensures BooleanOf(plan, args, LessThanEq, filters, w, fuel) == Ok(e + " less than or equal to " + args[1])
  {
    var t := [Slot(0), Lit(" less than or equal to "), Slot(1)];
    assert Shape(w, LessThanEq) == (Render(t), 2);
    var value := ArgValues(plan, filters, w, fuel);
    assert value(args[0]) == ArgValue(plan, args[0], filters, w, fuel);
    assert value(args[1]) == ArgValue(plan, args[1], filters, w, fuel) == Ok(Some(args[1]));
    LessThanEqMiddle();
    ComparisonFill(args, value, e, " less than or equal to ");
  }

  /** The connecting text of the `lessthan_eq` template holds no placeholder. */
  lemma LessThanEqMiddle()
    ensures BraceFree(" less than or equal to ")
  {
    var m := " less than or equal to ";
    forall k | 0 <= k < |m| ensures m[k] != '{' {
      assert m[k] in {' ', 'l', 'e', 's', 't', 'h', 'a', 'n', 'o', 'r', 'q', 'u'};
    }
  }

  /** A two-placeholder template filled with the values of the two arguments. */
  lemma ComparisonFill(args: seq<string>, value: string -> Result<Option<string>>, e: string, mid: string)
    requires |args| >= 2 && BraceFree(e) && BraceFree(args[1]) && BraceFree(mid)
    requires value(args[0]) == Ok(Some(e)) && value(args[1]) == Ok(Some(args[1]))
    ensures FillSkip(Render([Slot(0), Lit(mid), Slot(1)]), args, 0, 2, value) == Ok(e + mid + args[1])
  {
    var v := args[1];
    var t := [Slot(0), Lit(mid), Slot(1)];
    var text := a => if a == args[0] then Ok(e) else Ok(a);
    assert text(args[0]) == Ok(e) && text(args[1]) == Ok(v);
    FillSkipFills(Render(t), args, 0, 2, value, text);
    assert Plain(t);
    FillTemplate(t, args, text, [e, v]);
    ComparisonTemplate(e, mid, v);
  }

  /** A two-placeholder template with both its placeholders filled. */
  lemma ComparisonTemplate(e: string, mid: string, v: string)
    ensures Render(FillSlots([Slot(0), Lit(mid), Slot(1)], [e, v], 0)) == e + mid + v
  {
    var t := [Slot(0), Lit(mid), Slot(1)];
    var t1 := FillSlot(t, 0, e);
    assert t1 == [Lit(e), Lit(mid), Slot(1)];
    var t2 := FillSlot(t1, 1, v);
    assert t2 == [Lit(e), Lit(mid), Lit(v)];
    assert FillSlots(t, [e, v], 0) == FillSlots(t1, [e, v], 1) == FillSlots(t2, [e, v], 2) == t2;
    RenderCons(Lit(v), []);
    RenderCons(Lit(mid), [Lit(v)]);
    RenderCons(Lit(e), [Lit(mid), Lit(v)]);
  }

  // ---------------------------------------------------------------------------
  // express_final_collect_statement
  // ---------------------------------------------------------------------------

  /** One collected argument: its prefix and its words with filters; an argument of no kind gives "". */
  function CollectPart(plan: Plan, arg: string, filters: seq<string>, w: Words, fuel: nat): Result<string>
  {
    var s :- StepAt(plan, arg);
    var _ :- ResolveOperation(s.operation);
    var kind :- KindOf(plan, arg, w);
    match kind
    case None => Ok("")
    case Some(k) =>
      var prefix :- Prefix(plan, arg, w, fuel);
      var words :- Phrase(plan, k, arg, filters, w, fuel);
      Ok(prefix + " " + words)
  }

  function CollectParts(plan: Plan, filters: seq<string>, w: Words, fuel: nat): string -> Result<string>
  {
    a => CollectPart(plan, a, filters, w, fuel)
  }

  /** `express_final_collect_statement`: the parts of the collect step, as an Oxford-comma list. */
  function FinalCollectStatement(plan: Plan, ref: string, filters: seq<string>, w: Words, fuel: nat): Result<string>
  {
    var s :- StepAt(plan, ref);
    OxfordOf(s.args, CollectParts(plan, filters, w, fuel))
  }

  /** The arguments, each expressed, as an Oxford-comma list; the first failure is passed on. */
  function OxfordOf(args: seq<string>, part: string -> Result<string>): Result<string>
  {
    var parts :- ExpressAll(args, part);
    Ok(Oxfordcomma(parts))
  }

  /** An Oxford-comma list of expressed arguments fails exactly when one argument fails, and otherwise lists them in order. */
  lemma OxfordAll(args: seq<string>, part: string -> Result<string>)
    ensures var r := OxfordOf(args, part);
      r.Ok? <==> forall k :: 0 <= k < |args| ==> part(args[k]).Ok?
    ensures var r := OxfordOf(args, part);
      r.Ok? ==> r.value == Oxfordcomma(seq(|args|, k requires 0 <= k < |args| => part(args[k]).value))
  {
    var e := ExpressAll(args, part);
    ExpressAllMeaning(args, part);
    if e.Ok? {
      assert e.value == seq(|args|, k requires 0 <= k < |args| => part(args[k]).value);
    }
  }

  /**
   * The statement of a collect step that is a key of the plan is the
   * Oxford-comma list of its arguments' parts (see `OxfordAll`).
   */
  lemma FinalCollectParts(plan: Plan, ref: string, filters: seq<string>, w: Words, fuel: nat)
    requires HasKey(plan, ref)
    ensures FinalCollectStatement(plan, ref, filters, w, fuel) == OxfordOf(Get(plan, ref).value.args, CollectParts(plan, filters, w, fuel))
  {
    assert StepAt(plan, ref) == Ok(Get(plan, ref).value);
  }

  /** A part with words starts with one of the five prefixes. */
  lemma CollectPartPrefix(plan: Plan, arg: string, filters: seq<string>, w: Words, fuel: nat)
    ensures var r := CollectPart(plan, arg, filters, w, fuel);
      (r.Ok? && r.value != "") ==>
        exists p, words :: IsPrefixPhrase(p) && r.value == p + " " + words
  {
    var r := CollectPart(plan, arg, filters, w, fuel);
    if r.Ok? && r.value != "" {
      PrefixPhrases(plan, arg, w, fuel);
      var p := Prefix(plan, arg, w, fuel).value;
      var k := KindOf(plan, arg, w).value.value;
      var words := Phrase(plan, k, arg, filters, w, fuel).value;
      assert r.value == p + " " + words;
    }
  }

  // ---------------------------------------------------------------------------
  // express_final_return_step
  // ---------------------------------------------------------------------------

  /**
   * The loops over the return step's arguments that keep the part of the
   * LAST argument whose operation is `name`: every matching argument's
   * part is still computed, and an earlier one that fails raises.
   */
  function LastFrom(plan: Plan, args: seq<string>, i: nat, acc: string, name: string, part: string -> Result<string>): Result<string>
    decreases |args| - i
  {
    if i >= |args| then Ok(acc)
    else
      var s :- StepAt(plan, args[i]);
      if s.operation == name then
        var p :- part(args[i]);
        LastFrom(plan, args, i + 1, p, name, part)
      else LastFrom(plan, args, i + 1, acc, name, part)
  }

  /** Where every lookup and part succeeds, the last match wins, or nothing is found. */
  lemma {:induction false} LastFromWins(plan: Plan, args: seq<string>, i: nat, acc: string, name: string, part: string -> Result<string>)
    requires i <= |args|
    requires forall k :: i <= k < |args| ==> HasKey(plan, args[k])
    requires forall k :: i <= k < |args| && Get(plan, args[k]).value.operation == name ==> part(args[k]).Ok?
    ensures (forall k :: i <= k < |args| ==> Get(plan, args[k]).value.operation != name) ==>
      LastFrom(plan, args, i, acc, name, part) == Ok(acc)
    ensures forall j ::
      (i <= j < |args| && Get(plan, args[j]).value.operation == name &&
       (forall k :: j < k < |args| ==> Get(plan, args[k]).value.operation != name)) ==>
        LastFrom(plan, args, i, acc, name, part) == part(args[j])
    decreases |args| - i
  {
    if i < |args| {
      var s := Get(plan, args[i]).value;
      if s.operation == name {
        LastFromWins(plan, args, i + 1, part(args[i]).value, name, part);
      } else {
        LastFromWins(plan, args, i + 1, acc, name, part);
      }
    }
  }

  /** One of the loops of `express_final_return_step`. */
  method LastOfKind(plan: Plan, args: seq<string>, name: string, part: string -> Result<string>) returns (r: Result<string>)
    ensures r == LastFrom(plan, args, 0, "", name, part)
  {
    var statement := "";
    for i := 0 to |args|
      invariant LastFrom(plan, args, 0, "", name, part) == LastFrom(plan, args, i, statement, name, part)
    {
      var s := StepAt(plan, args[i]);
      if s.Err? {
        return Err(s.error);
      }
      if s.value.operation == name {
        var p := part(args[i]);
        if p.Err? {
          return Err(p.error);
        }
        statement := p.value;
      }
    }
    r := Ok(statement);
  }

  /** The filters the final return passes on: its boolean arguments, in order. */
  function ReturnArgFilters(plan: Plan, args: seq<string>): Result<seq<string>>
  {
    if args == [] then Ok([])
    else
      var s :- StepAt(plan, args[0]);
      var rest := ReturnArgFilters(plan, args[1..]);
      if IsBoolean(s.operation) then Then([args[0]], rest) else rest
  }

  lemma {:induction false} ReturnArgFiltersMeaning(plan: Plan, args: seq<string>)
    ensures ReturnArgFilters(plan, args).Ok? <==> forall k :: 0 <= k < |args| ==> HasKey(plan, args[k])
    ensures ReturnArgFilters(plan, args).Ok? ==>
      && (forall x :: x in ReturnArgFilters(plan, args).value ==> x in args && IsBoolean(Get(plan, x).value.operation))
      && (forall k :: 0 <= k < |args| && HasKey(plan, args[k]) && IsBoolean(Get(plan, args[k]).value.operation) ==>
            args[k] in ReturnArgFilters(plan, args).value)
  {
    if args != [] {
      ReturnArgFiltersMeaning(plan, args[1..]);
      assert forall k :: 0 < k < |args| ==> args[k] == args[1..][k - 1];
    }
  }

  /** The part for the sort: its prefix and the sort's words. */
  function SortPart(plan: Plan, w: Words, fuel: nat): string -> Result<string>
  {
    a => (var p :- Prefix(plan, a, w, fuel); var e :- w.sort(a); Ok(p + " " + e))
  }

  /** The part for the limit: its prefix, the limit's words and "results". */
  function LimitPart(plan: Plan, w: Words, fuel: nat): string -> Result<string>
  {
    a => (var p :- Prefix(plan, a, w, fuel); var e :- w.limit(a); Ok(p + " " + e + " results"))
  }

  /** How the three parts are put together, as written. */
  function CombineAsWritten(sort: string, limit: string, collect: string): string
  {
    if sort != "" && limit != "" then sort + " and " + limit + ", " + collect
    else if sort != "" then sort + ", " + collect
    else if limit != "" then limit + ", " + limit
    else collect
  }

  /**
   * With a limit and no sort the parts as written repeat the limit and
   * drop what is collected.
   */
  lemma CombineAsWrittenDropsCollect(limit: string, collect: string, other: string)
    requires limit != ""
    ensures CombineAsWritten("", limit, collect) == CombineAsWritten("", limit, other)
  {
  }

  /** How the three parts are put together, with the limit followed by what is collected. */
  function Combine(sort: string, limit: string, collect: string): string
  {
    if sort != "" && limit != "" then sort + " and " + limit + ", " + collect
    else if sort != "" then sort + ", " + collect
    else if limit != "" then limit + ", " + collect
    else collect
  }

  /** Every part that is there appears, in the order sort, limit, collect. */
  lemma CombineKeepsParts(sort: string, limit: string, collect: string)
    ensures sort == "" && limit == "" ==> Combine(sort, limit, collect) == collect
    ensures sort != "" || limit != "" ==> exists mid :: Combine(sort, limit, collect) == mid + ", " + collect
    ensures sort != "" ==> StartsWith(Combine(sort, limit, collect), sort)
    ensures sort == "" && limit != "" ==> StartsWith(Combine(sort, limit, collect), limit)
    ensures sort != "" && limit != "" ==> Combine(sort, limit, collect) == sort + " and " + limit + ", " + collect
    ensures forall other :: Combine(sort, limit, collect) == Combine(sort, limit, other) ==> collect == other
  {
    forall other | Combine(sort, limit, collect) == Combine(sort, limit, other)
      ensures collect == other
    {
      var c, d := Combine(sort, limit, collect), Combine(sort, limit, other);
      var n := |c| - |collect|;
      assert |c| - |collect| == |d| - |other|;
      assert collect == c[n..] && other == d[n..];
    }
    var c := Combine(sort, limit, collect);
    if sort != "" && limit != "" {
      assert c == (sort + " and " + limit) + ", " + collect;
      assert c[..|sort|] == sort;
    } else if sort != "" {
      assert c[..|sort|] == sort;
    } else if limit != "" {
      assert c[..|limit|] == limit;
    }
  }

  /** The question's first character upper-cased, the rest stripped, and "?" added; "" raises IndexError. */
  function FinishQuestion(q: string): (r: Result<string>)
    ensures r.Err? <==> q == ""
    ensures r.Err? ==> r.error == IndexError
    ensures r.Ok? ==> |r.value| >= 2 && r.value[0] == ToUpperChar(q[0]) && r.value[|r.value| - 1] == '?'
    ensures r.Ok? ==> r.value[1..|r.value| - 1] == Strip(q[1..])
  {
    if q == "" then Err(IndexError) else Ok([ToUpperChar(q[0])] + Strip(q[1..]) + "?")
  }

  /**
   * `express_final_return_step`: the sort, limit and collect parts of the
   * final return step, the filters it passes on, and the question.
   */
  method ExpressFinalReturnStep(plan: Plan, ref: string, w: Words, fuel: nat) returns (r: Result<string>)
    ensures r == FinalQuestion(plan, ref, w, fuel)
  {
    var s := StepAt(plan, ref);
    if s.Err? {
      return Err(s.error);
    }
    var op := ResolveOperation(s.value.operation);
    if op.Err? {
      return Err(op.error);
    }
    var args := s.value.args;
    var sort := LastOfKind(plan, args, "sort", SortPart(plan, w, fuel));
    if sort.Err? {
      return Err(sort.error);
    }
    var limit := LastOfKind(plan, args, "limit", LimitPart(plan, w, fuel));
    if limit.Err? {
      return Err(limit.error);
    }
    var filters := ReturnArgFilters(plan, args);
    if filters.Err? {
      return Err(filters.error);
    }
    var collect := LastOfKind(plan, args, "collect", a => FinalCollectStatement(plan, a, filters.value, w, fuel));
    if collect.Err? {
      return Err(collect.error);
    }
    r := FinishQuestion(Combine(sort.value, limit.value, collect.value));
  }

  /** The question for a final return step: one that comes out starts upper-cased and ends in "?". */
  function FinalQuestion(plan: Plan, ref: string, w: Words, fuel: nat): (r: Result<string>)
    ensures r.Ok? ==> |r.value| >= 2 && r.value[|r.value| - 1] == '?' && !('a' <= r.value[0] <= 'z')
  {
    var s :- StepAt(plan, ref);
    var _ :- ResolveOperation(s.operation);
    var sort :- LastFrom(plan, s.args, 0, "", "sort", SortPart(plan, w, fuel));
    var limit :- LastFrom(plan, s.args, 0, "", "limit", LimitPart(plan, w, fuel));
    var filters :- ReturnArgFilters(plan, s.args);
    var collect :- LastFrom(plan, s.args, 0, "", "collect", a => FinalCollectStatement(plan, a, filters, w, fuel));
    FinishQuestion(Combine(sort, limit, collect))
  }
}
