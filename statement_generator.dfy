/**
 * `core/Planning/StatementGenerator.py`: the statement template a plan's
 * answer is written into, and the statements that come out once the
 * result rows fill it. The template is built like the question of
 * `QuestionGenerator`, with its own step prefixes and ending; the rows are
 * written in either by `str.format` (one statement per row) or by
 * replacing "{result}" (one statement for the plan).
 */
module StatementGenerators {

  import opened Wrappers
  import opened Dicts
  import opened Chars
  import opened Text
  import opened Json
  import opened Ontology
  import opened Steps
  import opened ApiUtils
  import opened PlanningUtils
  import opened Placeholders
  import opened StepExpressors
  import opened QuestionGenerators
  import TemplateSlots
  import RingEntities
  import Rings
  import AnalysisEngines
  import opened ArgTypes

  /** `GenerationMode`, or any other value `self.mode` holds, by its text. */
  datatype Mode = OneStatementPerRow | OneStatementPerPlan | OtherMode(text: string)

  /** The ValueError an unknown generation mode raises. */
  function UnknownMode(text: string): Error
  {
    ValueError("Unknown GenerationMode, " + text)
  }

  /** `build_statement_ending`. */
  function StatementEnding(mode: Mode): (e: string)
    ensures |e| > 0 && e[|e| - 1] == '.'
  {
    if mode == OneStatementPerPlan then " is {result}." else "."
  }

  /**
   * One statement per plan ends by stating the result that replaces
   * "{result}"; the other modes end with a bare full stop that no result
   * goes into.
   */
  lemma EndingTakesResult(mode: Mode, v: string)
    ensures mode == OneStatementPerPlan ==> Replace(StatementEnding(mode), "{result}", v) == " is " + v + "."
    ensures mode != OneStatementPerPlan ==> Replace(StatementEnding(mode), "{result}", v) == "."
  {
    if mode == OneStatementPerPlan {
      assert BraceFree(" is ") && BraceFree(".");
      assert StatementEnding(mode) == " is " + "{result}" + ".";
      ReplaceBetween(" is ", "{result}", ".", v);
    } else {
      ReplaceBraceFree(".", "{result}", v);
    }
  }

  // ---------------------------------------------------------------------------
  // express_step_prefix
  // ---------------------------------------------------------------------------

  /**
   * `express_step_prefix`: "for" a sort, the prefix of the attribute
   * argument for a retrieval from a return step, "limited to the" a limit,
   * and "the" anything else. The recursion is bounded by `fuel`.
   */
  function StatementPrefix(plan: Plan, ref: string, fuel: nat): Result<string>
    decreases fuel
  {
    if fuel == 0 then Err(RecursionError)
    else
      var s :- StepAt(plan, ref);
      if s.operation == "sort" then Ok("for")
      else if IsRetrieval(s.operation) then
        if |s.args| == 0 then Err(IndexError)
        else
          var ret :- IsStepOf(plan, s.args[0], ReturnOps);
          if !ret then Ok(if s.operation == "limit" then "limited to the" else "the")
          else if |s.args| < 2 then Err(IndexError)
          else StatementPrefix(plan, s.args[1], fuel - 1)
      else Ok(if s.operation == "limit" then "limited to the" else "the")
  }

  /** Only the three prefixes come out. */
  lemma {:induction false} StatementPrefixPhrases(plan: Plan, ref: string, fuel: nat)
    ensures StatementPrefix(plan, ref, fuel).Ok? ==> StatementPrefix(plan, ref, fuel).value in {"for", "limited to the", "the"}
    decreases fuel
  {
    if fuel > 0 && HasKey(plan, ref) {
      var s := Get(plan, ref).value;
      if IsRetrieval(s.operation) && |s.args| >= 2 {
        StatementPrefixPhrases(plan, s.args[1], fuel - 1);
      }
    }
  }

  /** A sort reads "for …", a limit "limited to the …", any other step that is no retrieval "the …". */
  lemma StatementPrefixOfKinds(plan: Plan, ref: string, fuel: nat)
    requires fuel > 0 && HasKey(plan, ref)
    ensures Get(plan, ref).value.operation == "sort" ==> StatementPrefix(plan, ref, fuel) == Ok("for")
    ensures Get(plan, ref).value.operation == "limit" ==> StatementPrefix(plan, ref, fuel) == Ok("limited to the")
    ensures var op := Get(plan, ref).value.operation;
      (op != "sort" && op != "limit" && !IsRetrieval(op)) ==> StatementPrefix(plan, ref, fuel) == Ok("the")
  {
    var op := Get(plan, ref).value.operation;
    if op == "limit" && IsRetrieval(op) {
      NamedCheckersAgree(op);
      IsOperationUnique(RetrievalOps, LimitOps, op);
    }
  }

  /** A retrieval from a return step takes the prefix of its attribute argument. */
  lemma StatementPrefixThroughReturn(plan: Plan, ref: string, fuel: nat)
    requires fuel > 0 && HasKey(plan, ref)
    requires IsRetrieval(Get(plan, ref).value.operation) && |Get(plan, ref).value.args| >= 2
    requires HasKey(plan, Get(plan, ref).value.args[0]) && IsReturn(Get(plan, Get(plan, ref).value.args[0]).value.operation)
    ensures StatementPrefix(plan, ref, fuel) == StatementPrefix(plan, Get(plan, ref).value.args[1], fuel - 1)
  {
    var op := Get(plan, ref).value.operation;
    ReturnIsReturn(Get(plan, Get(plan, ref).value.args[0]).value.operation);
    assert op != "sort" by {
      if op == "sort" {
        NamedCheckersAgree(op);
        IsOperationUnique(SortOps, RetrievalOps, op);
      }
    }
  }

  // ---------------------------------------------------------------------------
  // get_statements_for_collect, express_final_collect_statement
  // ---------------------------------------------------------------------------

  /** One collected argument: its statement prefix and its words with filters; an argument of no kind gives "". */
  function StatementPart(plan: Plan, arg: string, filters: seq<string>, w: Words, fuel: nat): Result<string>
  {
    var s :- StepAt(plan, arg);
    var _ :- ResolveOperation(s.operation);
    var kind :- KindOf(plan, arg, w);
    match kind
    case None => Ok("")
    case Some(k) =>
      var prefix :- StatementPrefix(plan, arg, fuel);
      var words :- Phrase(plan, k, arg, filters, w, fuel);
      Ok(prefix + " " + words)
  }

  function StatementParts(plan: Plan, filters: seq<string>, w: Words, fuel: nat): string -> Result<string>
  {
    a => StatementPart(plan, a, filters, w, fuel)
  }

  /** `get_statements_for_collect`: one statement per argument of the collect step. */
  function StatementsForCollect(plan: Plan, ref: string, filters: seq<string>, w: Words, fuel: nat): Result<seq<string>>
  {
    var s :- StepAt(plan, ref);
    ExpressAll(s.args, StatementParts(plan, filters, w, fuel))
  }

  /** The loop of `get_statements_for_collect`. */
  method GetStatementsForCollect(plan: Plan, ref: string, filters: seq<string>, w: Words, fuel: nat) returns (r: Result<seq<string>>)
    ensures r == StatementsForCollect(plan, ref, filters, w, fuel)
  {
    var s := StepAt(plan, ref);
    if s.Err? {
      return Err(s.error);
    }
    var args := s.value.args;
    var part := StatementParts(plan, filters, w, fuel);
    var statements := [];
    var i := 0;
    assert args[0..] == args;
    ThenEmpty(ExpressAll(args, part));
    while i < |args|
      invariant 0 <= i <= |args|
      invariant ExpressAll(args, part) == Then(statements, ExpressAll(args[i..], part))
    {
      var p := part(args[i]);
      ExpressAllAt(args, part, i);
      if p.Err? {
        return Err(p.error);
      }
      ThenConcat(statements, [p.value], ExpressAll(args[i + 1..], part));
      statements := statements + [p.value];
      i := i + 1;
    }
    assert args[i..] == [] && statements + [] == statements;
    r := Ok(statements);
  }

  /** One step of `ExpressAll` from position `i`. */
  lemma ExpressAllAt(args: seq<string>, express: string -> Result<string>, i: nat)
    requires i < |args|
    ensures var r := ExpressAll(args[i..], express);
      && (express(args[i]).Err? ==> r == Err(express(args[i]).error))
      && (express(args[i]).Ok? ==> r == Then([express(args[i]).value], ExpressAll(args[i + 1..], express)))
  {
    assert args[i..][0] == args[i] && args[i..][1..] == args[i + 1..];
  }

  /** A statement with words starts with one of the three statement prefixes. */
  lemma StatementPartPrefix(plan: Plan, arg: string, filters: seq<string>, w: Words, fuel: nat)
    ensures var r := StatementPart(plan, arg, filters, w, fuel);
      (r.Ok? && r.value != "") ==>
        exists p, words :: p in {"for", "limited to the", "the"} && r.value == p + " " + words
  {
    var r := StatementPart(plan, arg, filters, w, fuel);
    if r.Ok? && r.value != "" {
      StatementPrefixPhrases(plan, arg, fuel);
      var p := StatementPrefix(plan, arg, fuel).value;
      var k := KindOf(plan, arg, w).value.value;
      var words := Phrase(plan, k, arg, filters, w, fuel).value;
      assert r.value == p + " " + words;
    }
  }

  /** The statement of the `idx`-th collected value, followed by the place its value goes. */
  function NumberedStatement(statement: string, idx: nat): string
  {
    RStrip(statement) + " is " + SlotToken(idx)
  }

  /** What the per-row loop makes of the statements. */
  function Numbered(statements: seq<string>): (r: seq<string>)
    ensures |r| == |statements|
    ensures forall k :: 0 <= k < |r| ==> r[k] == NumberedStatement(statements[k], k)
  {
    seq(|statements|, k requires 0 <= k < |statements| => NumberedStatement(statements[k], k))
  }

  /** The loop of `express_final_collect_statement` in per-row mode. */
  method NumberStatements(statements: seq<string>) returns (r: seq<string>)
    ensures r == Numbered(statements)
  {
    r := [];
    for i := 0 to |statements|
      invariant |r| == i
      invariant forall k :: 0 <= k < i ==> r[k] == NumberedStatement(statements[k], k)
    {
      r := r + [RStrip(statements[i]) + " is {" + NatToString(i) + "}"];
    }
  }

  /** How `express_final_collect_statement` puts the statements together in each mode. */
  function CollectStatement(mode: Mode, statements: seq<string>): Result<string>
  {
    match mode
    case OneStatementPerPlan => Ok(Join(" and ", statements))
    case OneStatementPerRow => Ok(Oxfordcomma(Numbered(statements)))
    case OtherMode(text) => Err(UnknownMode(text))
  }

  /** `express_final_collect_statement`. */
  function FinalCollectStatement(mode: Mode, plan: Plan, ref: string, filters: seq<string>, w: Words, fuel: nat): Result<string>
  {
    var statements :- StatementsForCollect(plan, ref, filters, w, fuel);
    CollectStatement(mode, statements)
  }

  /** Only the two generation modes put statements together; any other mode raises ValueError. */
  lemma CollectStatementModes(mode: Mode, statements: seq<string>)
    ensures CollectStatement(mode, statements).Ok? <==> !mode.OtherMode?
    ensures mode.OtherMode? ==> CollectStatement(mode, statements).error.ValueError?
    ensures mode == OneStatementPerPlan && |statements| == 1 ==> CollectStatement(mode, statements) == Ok(statements[0])
    ensures mode == OneStatementPerRow && |statements| == 1 ==>
      CollectStatement(mode, statements) == Ok(RStrip(statements[0]) + " is {0}")
  {
    if mode == OneStatementPerRow && |statements| == 1 {
      assert NatToString(0) == "0";
      assert SlotToken(0) == "{0}";
      assert Numbered(statements) == [NumberedStatement(statements[0], 0)];
      assert RStrip(statements[0]) + " is " + "{0}" == RStrip(statements[0]) + " is {0}";
    }
  }

  // ---------------------------------------------------------------------------
  // express_final_return_step
  // ---------------------------------------------------------------------------

  /** The part for the sort: its statement prefix and the sort's words. */
  function StatementSortPart(plan: Plan, w: Words, fuel: nat): string -> Result<string>
  {
    a => (var p :- StatementPrefix(plan, a, fuel); var e :- w.sort(a); Ok(p + " " + e))
  }

  /** The part for the limit: its statement prefix, the limit's words and "results". */
  function StatementLimitPart(plan: Plan, w: Words, fuel: nat): string -> Result<string>
  {
    a => (var p :- StatementPrefix(plan, a, fuel); var e :- w.limit(a); Ok(p + " " + e + " results"))
  }

  /** The parts put together as for the question, except that a lone collect part loses its leading spaces. */
  function CombineStatement(sort: string, limit: string, collect: string): (r: string)
    ensures sort == "" && limit == "" ==> r == LStrip(collect)
    ensures sort != "" || limit != "" ==> r == Combine(sort, limit, collect)
  {
    if sort == "" && limit == "" then LStrip(collect) else Combine(sort, limit, collect)
  }

  /** The statement's first character upper-cased, the rest stripped, and the mode's ending added; "" raises IndexError. */
  function FinishStatement(mode: Mode, q: string): (r: Result<string>)
    ensures r.Err? <==> q == ""
    ensures r.Err? ==> r.error == IndexError
    ensures r.Ok? ==> |r.value| > |StatementEnding(mode)| && r.value[0] == ToUpperChar(q[0]) && !('a' <= r.value[0] <= 'z') && EndsWith(r.value, StatementEnding(mode))
    ensures r.Ok? ==> r.value[1..|r.value| - |StatementEnding(mode)|] == Strip(q[1..])
  {
    if q == "" then Err(IndexError) else Ok([ToUpperChar(q[0])] + Strip(q[1..]) + StatementEnding(mode))
  }

  /** The statement template for a final return step. */
  function FinalStatement(mode: Mode, plan: Plan, ref: string, w: Words, fuel: nat): (r: Result<string>)
    ensures r.Ok? ==> EndsWith(r.value, StatementEnding(mode)) && !('a' <= r.value[0] <= 'z')
  {
    var s :- StepAt(plan, ref);
    var _ :- ResolveOperation(s.operation);
    var sort :- LastFrom(plan, s.args, 0, "", "sort", StatementSortPart(plan, w, fuel));
    var limit :- LastFrom(plan, s.args, 0, "", "limit", StatementLimitPart(plan, w, fuel));
    var filters :- ReturnArgFilters(plan, s.args);
    var collect :- LastFrom(plan, s.args, 0, "", "collect", a => FinalCollectStatement(mode, plan, a, filters, w, fuel));
    FinishStatement(mode, CombineStatement(sort, limit, collect))
  }

  /**
   * `express_final_return_step`: the sort, limit and collect parts of the
   * final return step, the filters it passes on, and the statement.
   */
  method ExpressFinalReturnStep(mode: Mode, plan: Plan, ref: string, w: Words, fuel: nat) returns (r: Result<string>)
    ensures r == FinalStatement(mode, plan, ref, w, fuel)
  {
    var s := StepAt(plan, ref);
    if s.Err? {
      return Err(s.error);
    }
    var op := ResolveOperation(s.value.operation);
    if op.Err? {
      return Err(op.error);
    }
    var args := s.value.args;
    var sort := LastOfKind(plan, args, "sort", StatementSortPart(plan, w, fuel));
    if sort.Err? {
      return Err(sort.error);
    }
    var limit := LastOfKind(plan, args, "limit", StatementLimitPart(plan, w, fuel));
    if limit.Err? {
      return Err(limit.error);
    }
    var filters := ReturnArgFilters(plan, args);
    if filters.Err? {
      return Err(filters.error);
    }
    var collect := LastOfKind(plan, args, "collect", a => FinalCollectStatement(mode, plan, a, filters.value, w, fuel));
    if collect.Err? {
      return Err(collect.error);
    }
    r := FinishStatement(mode, CombineStatement(sort.value, limit.value, collect.value));
  }

  // ---------------------------------------------------------------------------
  // str.format with positional fields
  // ---------------------------------------------------------------------------

  /** A text with neither brace, which `str.format` copies as it is. */
  predicate NoBraces(s: string)
  {
    forall k :: 0 <= k < |s| ==> s[k] != '{' && s[k] != '}'
  }

  /**
   * `s.format(*args)`: "{{" and "}}" stand for single braces and "{n}"
   * for `args[n]` (IndexError past the end); a field of any other text is
   * looked up by name and so raises KeyError; an unclosed field and a lone
   * "}" raise ValueError.
   */
  function Format(s: string, args: seq<string>): Result<string>
    decreases |s|
  {
    if s == "" then Ok("")
    else if s[0] == '{' then
      if |s| >= 2 && s[1] == '{' then Then("{", Format(s[2..], args))
      else
        var e := TemplateSlots.CloseFrom(s, 1);
        if e == |s| then Err(ValueError("expected '}' before end of string"))
        else
          match AnalysisEngines.DigitsValue(s[1..e])
          case None => Err(KeyError(s[1..e]))
          case Some(n) => if n < |args| then Then(args[n], Format(s[e + 1..], args)) else Err(IndexError)
    else if s[0] == '}' then
      if |s| >= 2 && s[1] == '}' then Then("}", Format(s[2..], args))
      else Err(ValueError("Single '}' encountered in format string"))
    else Then([s[0]], Format(s[1..], args))
  }

  /** Text without braces is copied. */
  lemma {:induction false} FormatPlain(x: string, rest: string, args: seq<string>)
    requires NoBraces(x)
    ensures Format(x + rest, args) == Then(x, Format(rest, args))
    decreases |x|
  {
    if x == "" {
      assert x + rest == rest;
      ThenEmpty(Format(rest, args));
    } else {
      assert (x + rest)[0] == x[0] && (x + rest)[1..] == x[1..] + rest;
      FormatPlain(x[1..], rest, args);
      ThenConcat([x[0]], x[1..], Format(rest, args));
      assert [x[0]] + x[1..] == x;
    }
  }

  /** The search for a closing brace that ends inside `a` ends at the same place in a longer text. */
  lemma {:induction false} CloseFromAppend(a: string, b: string, k: nat)
    requires k <= |a| && TemplateSlots.CloseFrom(a, k) < |a|
    ensures TemplateSlots.CloseFrom(a + b, k) == TemplateSlots.CloseFrom(a, k)
    decreases |a| - k
  {
    assert (a + b)[k] == a[k];
    if a[k] != '}' {
      CloseFromAppend(a, b, k + 1);
    }
  }

  /** A positional field takes its argument. */
  lemma FormatField(i: nat, rest: string, args: seq<string>)
    requires i < |args|
    ensures Format(SlotToken(i) + rest, args) == Then(args[i], Format(rest, args))
  {
    var d := NatToString(i);
    var s := SlotToken(i) + rest;
    assert s == "{" + d + "}" + rest;
    var e := TemplateSlots.CloseFrom(s, 1);
    assert s[|d| + 1] == '}';
    assert forall m :: 1 <= m <= |d| ==> s[m] == d[m - 1];
    assert e == |d| + 1;
    assert s[1..e] == d;
    AnalysisEngines.DigitsValueOfNat(i);
    assert s[e + 1..] == rest;
  }

  /** Formatting a text that formats on its own, then more text, formats the two one after the other. */
  lemma {:induction false} FormatAppend(a: string, b: string, args: seq<string>)
    requires Format(a, args).Ok?
    ensures Format(a + b, args) == Then(Format(a, args).value, Format(b, args))
    decreases |a|
  {
    var s := a + b;
    if a == "" {
      assert s == b;
      ThenEmpty(Format(b, args));
    } else if a[0] == '{' || a[0] == '}' {
      assert |a| >= 2;
      assert s[0] == a[0] && s[1] == a[1];
      if a[1] == a[0] {
        assert s[2..] == a[2..] + b;
        FormatAppend(a[2..], b, args);
        ThenConcat([a[0]], Format(a[2..], args).value, Format(b, args));
      } else {
        var e := TemplateSlots.CloseFrom(a, 1);
        CloseFromAppend(a, b, 1);
        assert s[1..e] == a[1..e];
        assert s[e + 1..] == a[e + 1..] + b;
        var n := AnalysisEngines.DigitsValue(a[1..e]).value;
        FormatAppend(a[e + 1..], b, args);
        ThenConcat(args[n], Format(a[e + 1..], args).value, Format(b, args));
      }
    } else {
      assert s[0] == a[0] && s[1..] == a[1..] + b;
      FormatAppend(a[1..], b, args);
      ThenConcat([a[0]], Format(a[1..], args).value, Format(b, args));
    }
  }

  /** Joining texts with a separator without braces, then formatting, formats each text. */
  lemma {:induction false} FormatJoin(sep: string, xs: seq<string>, ys: seq<string>, args: seq<string>)
    requires NoBraces(sep) && |xs| == |ys|
    requires forall k {:trigger Format(xs[k], args)} :: 0 <= k < |xs| ==> Format(xs[k], args) == Ok(ys[k])
    ensures Format(Join(sep, xs), args) == Ok(Join(sep, ys))
    decreases |xs|
  {
    if |xs| >= 2 {
      FormatJoin(sep, xs[1..], ys[1..], args);
      var tail := Join(sep, xs[1..]);
      assert Join(sep, xs) == xs[0] + (sep + tail);
      FormatAppend(xs[0], sep + tail, args);
      FormatPlain(sep, tail, args);
      assert Join(sep, ys) == ys[0] + (sep + Join(sep, ys[1..]));
    }
  }

  lemma Separators()
    ensures NoBraces(", ") && NoBraces(" and ") && NoBraces(", and ") && NoBraces(" is ")
  {
  }

  /** Two formatted texts around a separator without braces. */
  lemma FormatPair(a: string, sep: string, b: string, a': string, b': string, args: seq<string>)
    requires NoBraces(sep) && Format(a, args) == Ok(a') && Format(b, args) == Ok(b')
    ensures Format(a + (sep + b), args) == Ok(a' + (sep + b'))
  {
    FormatAppend(a, sep + b, args);
    FormatPlain(sep, b, args);
  }

  /** An Oxford-comma list of texts, formatted, is the list of the formatted texts. */
  lemma FormatOxfordcomma(xs: seq<string>, ys: seq<string>, args: seq<string>)
    requires |xs| == |ys|
    requires forall k {:trigger Format(xs[k], args)} :: 0 <= k < |xs| ==> Format(xs[k], args) == Ok(ys[k])
    ensures Format(Oxfordcomma(xs), args) == Ok(Oxfordcomma(ys))
  {
    var n := |xs|;
    if n == 2 {
      FormatOxfordcommaTwo(xs[0], xs[1], ys[0], ys[1], args);
      assert xs == [xs[0], xs[1]] && ys == [ys[0], ys[1]];
    } else if n > 2 {
      var init, init' := xs[..n - 1], ys[..n - 1];
      assert forall k :: 0 <= k < |init| ==> init[k] == xs[k] && init'[k] == ys[k];
      FormatOxfordcommaLong(init, xs[n - 1], init', ys[n - 1], args);
      assert xs == init + [xs[n - 1]] && ys == init' + [ys[n - 1]];
    }
  }

  lemma FormatOxfordcommaTwo(a: string, b: string, a': string, b': string, args: seq<string>)
    requires Format(a, args) == Ok(a') && Format(b, args) == Ok(b')
    ensures Format(Oxfordcomma([a, b]), args) == Ok(Oxfordcomma([a', b']))
  {
    Separators();
    FormatPair(a, " and ", b, a', b', args);
    assert Oxfordcomma([a, b]) == a + (" and " + b);
    assert Oxfordcomma([a', b']) == a' + (" and " + b');
  }

  lemma FormatOxfordcommaLong(init: seq<string>, last: string, init': seq<string>, last': string, args: seq<string>)
    requires |init| == |init'| >= 2
    requires forall k {:trigger Format(init[k], args)} :: 0 <= k < |init| ==> Format(init[k], args) == Ok(init'[k])
    requires Format(last, args) == Ok(last')
    ensures Format(Oxfordcomma(init + [last]), args) == Ok(Oxfordcomma(init' + [last']))
  {
    var front, front' := Join(", ", init), Join(", ", init');
    Separators();
    FormatJoin(", ", init, init', args);
    FormatPair(front, ", and ", last, front', last', args);
    OxfordcommaLongShape(init, last);
    OxfordcommaLongShape(init', last');
  }

  /** Three or more texts: the first ones joined by commas, then ", and " and the last. */
  lemma OxfordcommaLongShape(init: seq<string>, last: string)
    requires |init| >= 2
    ensures Oxfordcomma(init + [last]) == Join(", ", init) + (", and " + last)
  {
    var xs := init + [last];
    OxfordcommaLong(xs);
    assert xs[..|xs| - 1] == init;
  }

  lemma OxfordcommaLong(xs: seq<string>)
    requires |xs| > 2
    ensures Oxfordcomma(xs) == Join(", ", xs[..|xs| - 1]) + (", and " + xs[|xs| - 1])
  {
    var front := Join(", ", xs[..|xs| - 1]);
    assert (front + ", and ") + xs[|xs| - 1] == front + (", and " + xs[|xs| - 1]);
  }

  /** A numbered statement without braces takes the value of its own position. */
  lemma FormatNumbered(statement: string, i: nat, args: seq<string>)
    requires NoBraces(statement) && i < |args|
    ensures Format(NumberedStatement(statement, i), args) == Ok(RStrip(statement) + " is " + args[i])
  {
    var x := RStrip(statement) + " is ";
    Separators();
    assert NoBraces(x) by {
      forall k | 0 <= k < |x| ensures x[k] != '{' && x[k] != '}' {
        if k < |RStrip(statement)| {
          assert x[k] == statement[k];
        } else {
          assert x[k] == " is "[k - |RStrip(statement)|];
        }
      }
    }
    assert NumberedStatement(statement, i) == x + SlotToken(i);
    FormatPlain(x, SlotToken(i), args);
    FormatField(i, "", args);
    assert SlotToken(i) + "" == SlotToken(i);
    assert args[i] + "" == args[i];
  }

  /**
   * The per-row collect statement, filled with a row's values by
   * `str.format`, puts each value after its own statement: the numbering
   * round-trips when the statements hold no braces.
   */
  lemma RowTemplateFilled(statements: seq<string>, args: seq<string>)
    requires |statements| <= |args|
    requires forall k :: 0 <= k < |statements| ==> NoBraces(statements[k])
    ensures Format(Oxfordcomma(Numbered(statements)), args)
      == Ok(Oxfordcomma(seq(|statements|, k requires 0 <= k < |statements| => RStrip(statements[k]) + " is " + args[k])))
  {
    var xs := Numbered(statements);
    var ys := seq(|statements|, k requires 0 <= k < |statements| => RStrip(statements[k]) + " is " + args[k]);
    forall k | 0 <= k < |xs| ensures Format(xs[k], args) == Ok(ys[k]) {
      FormatNumbered(statements[k], k, args);
    }
    FormatOxfordcomma(xs, ys, args);
  }

  // ---------------------------------------------------------------------------
  // Filling the result template with what the plan returned
  // ---------------------------------------------------------------------------

  /**
   * What executing a plan returned: its rows (each value already rendered
   * by `str`), the name of each column, the units of each column (a list
   * whose second element names the unit) and the names of the plan's
   * subplans.
   */
  datatype Outcome = Outcome(rows: seq<seq<string>>, fieldNames: seq<string>, units: seq<seq<string>>, subplans: seq<string>)

  /**
   * `get_reference_values(entity, field, value, reference)`, the database
   * query that turns an identifier into the text of the entity it names.
   */
  type ReferenceValues = (string, string, string, Json) -> Result<string>

  /** The entity and field column `idx` reads, when its name says so. */
  function FieldOf(o: Outcome, idx: nat): (r: Result<Option<(string, string)>>)
    ensures r.Ok? ==> idx < |o.fieldNames|
    ensures idx >= |o.fieldNames| ==> r == Err(IndexError)
  {
    if idx >= |o.fieldNames| then Err(IndexError)
    else
      match SubqueryNameSpec(o.fieldNames[idx], o.subplans)
      case Err(e) => Err(e)
      case Ok(d) =>
        if d == map[] then Ok(None)
        else
          SubqueryNameKeys(o.fieldNames[idx], o.subplans);
          Ok(Some((d["entity"], d["field"])))
  }

  /** The unit of column `idx`, if it has a non-empty one. */
  function UnitOf(o: Outcome, idx: nat): (r: Result<Option<string>>)
    ensures r.Ok? <==> idx < |o.units| && (o.units[idx] == [] || |o.units[idx]| >= 2)
    ensures r.Ok? && r.value.Some? ==> |o.units[idx]| >= 2 && r.value.value == o.units[idx][1] != ""
    ensures r.Ok? && r.value.None? ==> o.units[idx] == [] || o.units[idx][1] == ""
  {
    if idx >= |o.units| then Err(IndexError)
    else if o.units[idx] == [] then Ok(None)
    else if |o.units[idx]| < 2 then Err(IndexError)
    else if o.units[idx][1] == "" then Ok(None)
    else Ok(Some(o.units[idx][1]))
  }

  /**
   * The value followed by the unit of its column: the value is kept in
   * front, and text follows it exactly when the column has a non-empty
   * unit, which then ends the answer.
   */
  function WithUnit(o: Outcome, idx: nat, v: string): (r: Result<string>)
    ensures r.Ok? <==> UnitOf(o, idx).Ok?
    ensures r.Ok? ==> |r.value| >= |v| && r.value[..|v|] == v
    ensures r.Ok? ==> (r.value == v <==> o.units[idx] == [] || o.units[idx][1] == "")
    ensures r.Ok? && r.value != v ==> EndsWith(r.value, o.units[idx][1])
  {
    match UnitOf(o, idx)
    case Err(e) => Err(e)
    case Ok(None) => Ok(v)
    case Ok(Some(u)) => Ok(v + " " + u)
  }

  /** Whether the attribute `field` of the entity is typed as an identifier. */
  function IsIdentifierField(entity: RingEntities.EntityState, field: string): (r: Result<bool>)
    ensures r.Ok? <==> Get(entity.attributes, field).Some? && Get(entity.attributes, field).value.types.Some?
    ensures r.Ok? ==> (r.value <==> Identifier in Get(entity.attributes, field).value.types.value)
    ensures r.Err? && Get(entity.attributes, field).None? ==> r.error == KeyError(field)
  {
    match Get(entity.attributes, field)
    case None => Err(KeyError(field))
    case Some(a) => AnalysisEngines.HasIdentifierType(a)
  }

  /**
   * The entity, field and reference of column `idx` when it holds
   * identifiers of an entity that has a reference, which are then looked
   * up; none for any other column.
   */
  function ReferencedField(entities: seq<RingEntities.EntityState>, o: Outcome, idx: nat): (r: Result<Option<(string, string, Json)>>)
    ensures r.Ok? && r.value.Some? ==> Truthy(r.value.value.2)
  {
    match FieldOf(o, idx)
    case Err(e) => Err(e)
    case Ok(None) => Ok(None)
    case Ok(Some(ef)) =>
      match Rings.EntityByName(entities, JStr(ef.0))
      case Err(e) => Err(e)
      case Ok(entity) =>
        if !Truthy(entity.reference) then Ok(None)
        else
          match IsIdentifierField(entity, ef.1)
          case Err(e) => Err(e)
          case Ok(true) => Ok(Some((ef.0, ef.1, entity.reference)))
          case Ok(false) => Ok(None)
  }

  /**
   * One value of a row when the plan gets one statement: an identifier of
   * an entity that has a reference is looked up, any other value gets the
   * unit of its column.
   */
  function PlanAnswer(entities: seq<RingEntities.EntityState>, o: Outcome, lookup: ReferenceValues, idx: nat, v: string): Result<string>
  {
    match ReferencedField(entities, o, idx)
    case Err(e) => Err(e)
    case Ok(Some(ref)) => lookup(ref.0, ref.1, v, ref.2)
    case Ok(None) => WithUnit(o, idx, v)
  }

  /**
   * One value of a row when each row gets its own statement: an identifier
   * of an entity is looked up; any other value of an entity's field is kept
   * as it is, and only the other columns get their unit.
   */
  function RowAnswer(entities: seq<RingEntities.EntityState>, o: Outcome, lookup: ReferenceValues, idx: nat, v: string): Result<string>
  {
    match FieldOf(o, idx)
    case Err(e) => Err(e)
    case Ok(None) => WithUnit(o, idx, v)
    case Ok(Some(ef)) =>
      match Rings.EntityByName(entities, JStr(ef.0))
      case Err(e) => Err(e)
      case Ok(entity) =>
        match IsIdentifierField(entity, ef.1)
        case Err(e) => Err(e)
        case Ok(true) => lookup(ef.0, ef.1, v, entity.reference)
        case Ok(false) => Ok(v)
  }

  function PlanAnswers(entities: seq<RingEntities.EntityState>, o: Outcome, lookup: ReferenceValues): (nat, string) -> Result<string>
  {
    (idx: nat, v: string) => PlanAnswer(entities, o, lookup, idx, v)
  }

  function RowAnswers(entities: seq<RingEntities.EntityState>, o: Outcome, lookup: ReferenceValues): (nat, string) -> Result<string>
  {
    (idx: nat, v: string) => RowAnswer(entities, o, lookup, idx, v)
  }

  /** The items `item(j)`, …, `item(count - 1)`, in order, or the first error among them. */
  function EachFrom<T>(count: nat, item: nat -> Result<T>, j: nat): Result<seq<T>>
    decreases count - j
  {
    if j >= count then Ok([])
    else
      var x :- item(j);
      Then([x], EachFrom(count, item, j + 1))
  }

  /** There is one result per item, each the item's own, and the whole fails only where an item fails. */
  lemma {:induction false} EachFromMeaning<T>(count: nat, item: nat -> Result<T>, j: nat)
    requires j <= count
    ensures EachFrom(count, item, j).Ok? <==> forall k :: j <= k < count ==> item(k).Ok?
    ensures EachFrom(count, item, j).Ok? ==>
      && |EachFrom(count, item, j).value| == count - j
      && forall k :: j <= k < count ==> EachFrom(count, item, j).value[k - j] == item(k).value
    decreases count - j
  {
    if j < count {
      EachFromMeaning(count, item, j + 1);
    }
  }

  /** The answer for the value in column `k` of a row; there is no column past the last. */
  function ColumnAnswers(row: seq<string>, answer: (nat, string) -> Result<string>): nat -> Result<string>
  {
    (k: nat) => if k < |row| then answer(k, row[k]) else Err(IndexError)
  }

  /** The answers of one row, column by column. */
  method FillAnswers(row: seq<string>, answer: (nat, string) -> Result<string>) returns (r: Result<seq<string>>)
    ensures r == EachFrom(|row|, ColumnAnswers(row, answer), 0)
  {
    var item := ColumnAnswers(row, answer);
    var answers := [];
    var i := 0;
    ThenEmpty(EachFrom(|row|, item, 0));
    while i < |row|
      invariant 0 <= i <= |row|
      invariant EachFrom(|row|, item, 0) == Then(answers, EachFrom(|row|, item, i))
      decreases |row| - i
    {
      var a := answer(i, row[i]);
      if a.Err? {
        return Err(a.error);
      }
      ThenConcat(answers, [a.value], EachFrom(|row|, item, i + 1));
      answers := answers + [a.value];
      i := i + 1;
    }
    assert answers + [] == answers;
    r := Ok(answers);
  }

  /** The filler of row `j`: its answers joined by " and ". */
  function PlanFiller(entities: seq<RingEntities.EntityState>, o: Outcome, lookup: ReferenceValues, j: nat): Result<string>
  {
    if j >= |o.rows| then Err(IndexError)
    else
      var answers :- EachFrom(|o.rows[j]|, ColumnAnswers(o.rows[j], PlanAnswers(entities, o, lookup)), 0);
      Ok(Join(" and ", answers))
  }

  function PlanFillers(entities: seq<RingEntities.EntityState>, o: Outcome, lookup: ReferenceValues): nat -> Result<string>
  {
    (j: nat) => PlanFiller(entities, o, lookup, j)
  }

  /** The plan's template with the fillers, joined by commas, in place of "{result}". */
  function FillPlanTemplate(template: string, fillers: seq<string>): string
  {
    Replace(template, "{result}", Join(", ", fillers))
  }

  /** `fill_result_one_statement_per_plan`: one statement for all the rows. */
  function FilledPerPlan(entities: seq<RingEntities.EntityState>, o: Outcome, lookup: ReferenceValues, template: string): Result<seq<string>>
  {
    var fillers :- EachFrom(|o.rows|, PlanFillers(entities, o, lookup), 0);
    Ok([FillPlanTemplate(template, fillers)])
  }

  /** The statement of row `j`: the template formatted with the row's answers. */
  function RowStatement(entities: seq<RingEntities.EntityState>, o: Outcome, lookup: ReferenceValues, template: string, j: nat): Result<string>
  {
    if j >= |o.rows| then Err(IndexError)
    else
      var answers :- EachFrom(|o.rows[j]|, ColumnAnswers(o.rows[j], RowAnswers(entities, o, lookup)), 0);
      Format(template, answers)
  }

  function RowStatements(entities: seq<RingEntities.EntityState>, o: Outcome, lookup: ReferenceValues, template: string): nat -> Result<string>
  {
    (j: nat) => RowStatement(entities, o, lookup, template, j)
  }

  /** `fill_result_one_statement_per_row`: one statement for each row. */
  function FilledPerRow(entities: seq<RingEntities.EntityState>, o: Outcome, lookup: ReferenceValues, template: string): Result<seq<string>>
  {
    EachFrom(|o.rows|, RowStatements(entities, o, lookup, template), 0)
  }

  /** `fill_result`, in the generator's mode. */
  function Filled(mode: Mode, entities: seq<RingEntities.EntityState>, o: Outcome, lookup: ReferenceValues, template: string): Result<seq<string>>
  {
    match mode
    case OneStatementPerPlan => FilledPerPlan(entities, o, lookup, template)
    case OneStatementPerRow => FilledPerRow(entities, o, lookup, template)
    case OtherMode(text) => Err(UnknownMode(text))
  }

  method FillResultOneStatementPerPlan(entities: seq<RingEntities.EntityState>, o: Outcome, lookup: ReferenceValues, template: string)
    returns (r: Result<seq<string>>)
    ensures r == FilledPerPlan(entities, o, lookup, template)
  {
    var item := PlanFillers(entities, o, lookup);
    var fillers := [];
    var j := 0;
    ThenEmpty(EachFrom(|o.rows|, item, 0));
    while j < |o.rows|
      invariant 0 <= j <= |o.rows|
      invariant EachFrom(|o.rows|, item, 0) == Then(fillers, EachFrom(|o.rows|, item, j))
      decreases |o.rows| - j
    {
      var answers := FillAnswers(o.rows[j], PlanAnswers(entities, o, lookup));
      if answers.Err? {
        return Err(answers.error);
      }
      var filler := Join(" and ", answers.value);
      ThenConcat(fillers, [filler], EachFrom(|o.rows|, item, j + 1));
      fillers := fillers + [filler];
      j := j + 1;
    }
    assert fillers + [] == fillers;
    r := Ok([FillPlanTemplate(template, fillers)]);
  }

  method FillResultOneStatementPerRow(entities: seq<RingEntities.EntityState>, o: Outcome, lookup: ReferenceValues, template: string)
    returns (r: Result<seq<string>>)
    ensures r == FilledPerRow(entities, o, lookup, template)
  {
    var item := RowStatements(entities, o, lookup, template);
    var statements := [];
    var j := 0;
    ThenEmpty(EachFrom(|o.rows|, item, 0));
    while j < |o.rows|
      invariant 0 <= j <= |o.rows|
      invariant EachFrom(|o.rows|, item, 0) == Then(statements, EachFrom(|o.rows|, item, j))
      decreases |o.rows| - j
    {
      var answers := FillAnswers(o.rows[j], RowAnswers(entities, o, lookup));
      if answers.Err? {
        return Err(answers.error);
      }
      var statement := Format(template, answers.value);
      if statement.Err? {
        return Err(statement.error);
      }
      ThenConcat(statements, [statement.value], EachFrom(|o.rows|, item, j + 1));
      statements := statements + [statement.value];
      j := j + 1;
    }
    assert statements + [] == statements;
    r := Ok(statements);
  }

  method FillResult(mode: Mode, entities: seq<RingEntities.EntityState>, o: Outcome, lookup: ReferenceValues, template: string)
    returns (r: Result<seq<string>>)
    ensures r == Filled(mode, entities, o, lookup, template)
  {
    match mode
    case OneStatementPerPlan =>
      r := FillResultOneStatementPerPlan(entities, o, lookup, template);
    case OneStatementPerRow =>
      r := FillResultOneStatementPerRow(entities, o, lookup, template);
    case OtherMode(text) =>
      r := Err(UnknownMode(text));
  }

  // ---------------------------------------------------------------------------
  // What the filled statements say
  // ---------------------------------------------------------------------------

  /** A column that names no entity field gets the same answer in both modes: its value and its unit. */
  lemma AnswersOffFields(entities: seq<RingEntities.EntityState>, o: Outcome, lookup: ReferenceValues, idx: nat, v: string)
    requires FieldOf(o, idx) == Ok(None)
    ensures PlanAnswer(entities, o, lookup, idx, v) == RowAnswer(entities, o, lookup, idx, v) == WithUnit(o, idx, v)
  {
  }

  /**
   * For a column of an entity's field: an identifier of an entity with a
   * reference is looked up in both modes; any other field keeps its bare
   * value in a row's statement, and gets its unit in the plan's statement.
   */
  lemma AnswersOnFields(entities: seq<RingEntities.EntityState>, o: Outcome, lookup: ReferenceValues, idx: nat, v: string,
                        e: string, field: string, entity: RingEntities.EntityState)
    requires FieldOf(o, idx) == Ok(Some((e, field))) && Rings.EntityByName(entities, JStr(e)) == Ok(entity)
    requires IsIdentifierField(entity, field).Ok?
    ensures IsIdentifierField(entity, field).value && Truthy(entity.reference) ==>
      PlanAnswer(entities, o, lookup, idx, v) == RowAnswer(entities, o, lookup, idx, v) == lookup(e, field, v, entity.reference)
    ensures !IsIdentifierField(entity, field).value ==>
      RowAnswer(entities, o, lookup, idx, v) == Ok(v) && PlanAnswer(entities, o, lookup, idx, v) == WithUnit(o, idx, v)
  {
  }

  /**
   * A plan's statement ending in " is {result}." after text without braces
   * comes out with the fillers, joined by commas, where "{result}" stood.
   */
  lemma FillPlanTemplateStatement(q: string, fillers: seq<string>)
    requires BraceFree(q)
    ensures FillPlanTemplate(q + StatementEnding(OneStatementPerPlan), fillers) == q + " is " + Join(", ", fillers) + "."
  {
    var x := Join(", ", fillers);
    var ending := StatementEnding(OneStatementPerPlan);
    assert Replace(q + ending, "{result}", x) == q + Replace(ending, "{result}", x) by {
      ReplaceBraceFreePrefix(q, ending, "{result}", x);
    }
    assert Replace(ending, "{result}", x) == " is " + x + "." by {
      EndingTakesResult(OneStatementPerPlan, x);
    }
  }

  /** Formatting leaves text without braces on either side of a template as it is. */
  lemma FormatAround(prefix: string, t: string, suffix: string, args: seq<string>, filled: string)
    requires NoBraces(prefix) && NoBraces(suffix) && Format(t, args) == Ok(filled)
    ensures Format(prefix + t + suffix, args) == Ok(prefix + filled + suffix)
  {
    assert prefix + t + suffix == prefix + (t + suffix);
    FormatPlain(prefix, t + suffix, args);
    FormatAppend(t, suffix, args);
    FormatPlain(suffix, "", args);
    assert suffix + "" == suffix;
    assert prefix + (filled + suffix) == prefix + filled + suffix;
  }

  /**
   * A row's statement made from numbered statements, between text without
   * braces, puts each of the row's values after its own statement.
   */
  lemma RowStatementFilled(prefix: string, statements: seq<string>, suffix: string, args: seq<string>)
    requires NoBraces(prefix) && NoBraces(suffix)
    requires |statements| <= |args|
    requires forall k :: 0 <= k < |statements| ==> NoBraces(statements[k])
    ensures Format(prefix + Oxfordcomma(Numbered(statements)) + suffix, args)
      == Ok(prefix + Oxfordcomma(seq(|statements|, k requires 0 <= k < |statements| => RStrip(statements[k]) + " is " + args[k])) + suffix)
  {
    RowTemplateFilled(statements, args);
    FormatAround(prefix, Oxfordcomma(Numbered(statements)), suffix, args,
      Oxfordcomma(seq(|statements|, k requires 0 <= k < |statements| => RStrip(statements[k]) + " is " + args[k])));
  }
}
