/**
 * The registry of operations: every operation class the ontology loads, its
 * registered name, and for the sixteen classes whose definition is part of
 * this model the descriptor record `core/Operations/Operation.py` stores:
 * name, input operand groups, output operand groups and language template.
 */
module Operations {

  import opened Wrappers
  import opened Chars
  import opened ArgTypes
  import opened OpNames

  /** The upper bound of an operand group: a count, or `math.inf`. */
  datatype Bound = Finite(n: nat) | Unbounded

  /** `OperationArgument(min_num_args, max_num_args, types)`. */
  datatype OperandGroup = OperandGroup(minNum: nat, maxNum: Bound, types: seq<ArgType>)

  /** A group admits `n` operands when `n` lies between its bounds. */
  predicate Admits(g: OperandGroup, n: nat)
  {
    g.minNum <= n && (g.maxNum.Finite? ==> n <= g.maxNum.n)
  }

  /** Per-group operand counts that a list of groups accepts. */
  predicate Accepts(gs: seq<OperandGroup>, counts: seq<nat>)
  {
    |counts| == |gs| && forall i :: 0 <= i < |gs| ==> Admits(gs[i], counts[i])
  }

  /**
   * A language template, read as its pieces: literal text, a positional
   * placeholder `{i}`, or the `{target}` placeholder of aggregate templates.
   */
  datatype Piece = Lit(text: string) | Slot(index: nat) | Target

  type Template = seq<Piece>

  function RenderPiece(p: Piece): string
  {
    match p
    case Lit(t) => t
    case Slot(i) => "{" + NatToString(i) + "}"
    case Target => "{target}"
  }

  /** The template as the Python string literal spells it. */
  function Render(t: Template): string
  {
    if t == [] then "" else RenderPiece(t[0]) + Render(t[1..])
  }

  /** The positional placeholders a template mentions. */
  function Slots(t: Template): set<nat>
  {
    set k | 0 <= k < |t| && t[k].Slot? :: t[k].index
  }

  /** Whether the template mentions `{target}`. */
  predicate HasTarget(t: Template)
  {
    exists k :: 0 <= k < |t| && t[k].Target?
  }

  /** The record a class stores in `Operation.__init__` (plus its template). */
  datatype Descriptor = Descriptor(
    name: string,
    inputs: seq<OperandGroup>,
    outputs: seq<OperandGroup>,
    template: Option<Template>)

  function One(ts: seq<ArgType>): OperandGroup { OperandGroup(1, Finite(1), ts) }

  function Optional(ts: seq<ArgType>): OperandGroup { OperandGroup(0, Finite(1), ts) }

  function AtLeast(n: nat, ts: seq<ArgType>): OperandGroup { OperandGroup(n, Unbounded, ts) }

  /**
   * The descriptor of each class whose definition is part of this model; the
   * others (Exact, Contains, LessThan, GreaterThan, GreaterThanEq, Or, Not,
   * RetrieveAttribute, Limit, Average, Count, Max, Median, Sum, StringAgg,
   * GetOne, Correlation, Subtract, Multiply, Divide, Duration) are known
   * only by their registered name.
   */
  function DescriptorOf(op: Op): Option<Descriptor>
  {
    match op
    case StdDev =>
      Some(Descriptor("stddev", [One([Arithmetic, Metric]), Optional([Group])],
        [One([Arithmetic, Metric])], Some([Lit("standard deviation of "), Target])))
    case CountUnique =>
      Some(Descriptor("count_unique", [One([Arithmetic, Metric]), Optional([Group])],
        [One([Arithmetic, Metric])], Some([Lit("count "), Target])))
    case Min =>
      Some(Descriptor("min", [One([Arithmetic, Metric, Datetime]), Optional([Group])],
        [One([Arithmetic, Metric, Datetime])], Some([Lit("min of "), Target])))
    case Abs =>
      Some(Descriptor("abs", [One([Arithmetic, Metric, Datetime])],
        [One([Arithmetic, Metric, Datetime])], Some([Lit("absolute value of "), Slot(0)])))
    case PercentChange =>
      Some(Descriptor("percent_change", [OperandGroup(2, Finite(2), [Arithmetic, Metric])],
        [One([Arithmetic, Metric])],
        Some([Lit("percent change from "), Slot(0), Lit(" to "), Slot(1)])))
    case Add =>
      Some(Descriptor("add", [AtLeast(2, [Arithmetic, Metric, Datetime])],
        [One([Arithmetic, Metric, Datetime])], Some([Slot(0), Lit(" plus "), Slot(1)])))
    case RowNum =>
      Some(Descriptor("rownum", [One([ArgType.Sort])], [One([ArgType.RowNum])],
        Some([Lit("rank when "), Slot(0)])))
    case Percentage =>
      Some(Descriptor("percentage", [One([Quantity]), One([Quantity])], [One([Metric])],
        Some([Lit("percentage of "), Slot(0), Lit(" in "), Slot(1)])))
    case Sqrt =>
      Some(Descriptor("sqrt", [One([Arithmetic, Metric, Datetime])],
        [One([Arithmetic, Metric, Datetime])], Some([Lit("square root of "), Slot(0)])))
    case LessThanEq =>
      Some(Descriptor("lessthan_eq", [OperandGroup(2, Finite(2), [Metric, Arithmetic])],
        [One([Filter])], Some([Slot(0), Lit(" less than or equal to "), Slot(1)])))
    case And =>
      Some(Descriptor("and", [AtLeast(1, [Filter])], [One([Filter])], None))
    case Return =>
      Some(Descriptor("return", [One([AttributeCollection]), Optional([Filter]), Optional([ArgType.Sort])],
        [One([Entity])], None))
    case Sort =>
      Some(Descriptor("sort", [AtLeast(1, [Attribute]), One([String])], [One([ArgType.Sort])], None))
    case Groupby =>
      Some(Descriptor("groupby", [AtLeast(1, [Categorical, Datetime, Identifier])], [One([Group])], None))
    case Collect =>
      Some(Descriptor("collect", [AtLeast(1, [Attribute])], [One([AttributeCollection])], None))
    case RetrieveEntity =>
      Some(Descriptor("retrieve_entity", [One([String])], [One([Entity])], None))
    case _ => None
  }

  /** The sixteen classes with a descriptor. */
  predicate Described(op: Op)
  {
    op in {StdDev, CountUnique, Min, Abs, PercentChange, Add, Op.RowNum, Percentage, Sqrt,
      LessThanEq, And, Return, Op.Sort, Groupby, Collect, RetrieveEntity}
  }

  /** Every class registers under its descriptor's own name, and yields exactly one value. */
  lemma DescriptorShape(op: Op)
    ensures DescriptorOf(op).Some? <==> Described(op)
    ensures DescriptorOf(op).Some? ==> DescriptorOf(op).value.name == NameOf(op)
    ensures DescriptorOf(op).Some? ==>
      |DescriptorOf(op).value.outputs| == 1 && DescriptorOf(op).value.outputs[0].minNum == 1 &&
      DescriptorOf(op).value.outputs[0].maxNum == Finite(1)
  {
    DescribedIff(op);
    if DescriptorOf(op).Some? {
      DescriptorName(op);
      DescriptorOutputs(op);
    }
  }

  lemma DescribedIff(op: Op)
    ensures DescriptorOf(op).Some? <==> Described(op)
  {
  }

  lemma DescriptorName(op: Op)
    requires DescriptorOf(op).Some?
    ensures DescriptorOf(op).value.name == NameOf(op)
  {
  }

  lemma DescriptorOutputs(op: Op)
    requires DescriptorOf(op).Some?
    ensures |DescriptorOf(op).value.outputs| == 1 && DescriptorOf(op).value.outputs[0].minNum == 1
    ensures DescriptorOf(op).value.outputs[0].maxNum == Finite(1)
  {
    DescribedIff(op);
    if op in {StdDev, CountUnique, Min, Abs, PercentChange, Add, Op.RowNum, Percentage} {
      OutputsOfFirst(op);
    } else {
      OutputsOfRest(op);
    }
  }

  lemma OutputsOfFirst(op: Op)
    requires op in {StdDev, CountUnique, Min, Abs, PercentChange, Add, Op.RowNum, Percentage}
    ensures DescriptorOf(op).Some? && |DescriptorOf(op).value.outputs| == 1
    ensures DescriptorOf(op).value.outputs[0] == OperandGroup(1, Finite(1), DescriptorOf(op).value.outputs[0].types)
  {
  }

  lemma OutputsOfRest(op: Op)
    requires op in {Sqrt, LessThanEq, And, Return, Op.Sort, Groupby, Collect, RetrieveEntity}
    ensures DescriptorOf(op).Some? && |DescriptorOf(op).value.outputs| == 1
    ensures DescriptorOf(op).value.outputs[0] == OperandGroup(1, Finite(1), DescriptorOf(op).value.outputs[0].types)
  {
  }

  /** StdDev, CountUnique and Min take one value operand and an optional Group. */
  lemma AggregateArity(op: Op, counts: seq<nat>)
    requires op in {StdDev, CountUnique, Min}
    ensures Accepts(DescriptorOf(op).value.inputs, counts) <==> counts == [1, 0] || counts == [1, 1]
    ensures Group in DescriptorOf(op).value.inputs[1].types
    ensures (Datetime in DescriptorOf(op).value.inputs[0].types) <==> op == Min
    ensures DescriptorOf(op).value.template.Some?
    ensures HasTarget(DescriptorOf(op).value.template.value)
    ensures Slots(DescriptorOf(op).value.template.value) == {}
  {
    AggregateInputs(op, counts);
    AggregateTemplate(op);
  }

  lemma AggregateInputs(op: Op, counts: seq<nat>)
    requires op in {StdDev, CountUnique, Min}
    ensures Accepts(DescriptorOf(op).value.inputs, counts) <==> counts == [1, 0] || counts == [1, 1]
    ensures Group in DescriptorOf(op).value.inputs[1].types
    ensures (Datetime in DescriptorOf(op).value.inputs[0].types) <==> op == Min
  {
    var d := DescriptorOf(op).value;
    if counts == [1, 0] || counts == [1, 1] {
      assert Admits(d.inputs[0], counts[0]) && Admits(d.inputs[1], counts[1]);
    }
  }

  lemma AggregateTemplate(op: Op)
    requires op in {StdDev, CountUnique, Min}
    ensures DescriptorOf(op).value.template.Some?
    ensures HasTarget(DescriptorOf(op).value.template.value)
    ensures Slots(DescriptorOf(op).value.template.value) == {}
  {
    var t := DescriptorOf(op).value.template.value;
    assert |t| == 2 && t[0].Lit? && t[1].Target?;
  }

  /** The single-group operations and the operand counts they accept. */
  lemma SingleGroupArity(op: Op, n: nat)
    requires op in {Abs, Sqrt, Op.RowNum, RetrieveEntity, PercentChange, LessThanEq, Add, And, Groupby, Collect}
    ensures Accepts(DescriptorOf(op).value.inputs, [n]) <==>
      match op
      case Abs | Sqrt | RowNum | RetrieveEntity => n == 1
      case PercentChange | LessThanEq => n == 2
      case Add => n >= 2
      case _ => n >= 1
  {
    assert Accepts(DescriptorOf(op).value.inputs, [n]) <==> Admits(DescriptorOf(op).value.inputs[0], n);
  }

  /** Percentage takes two one-Quantity groups; Op.Sort takes attributes and one direction. */
  lemma TwoGroupArity(counts: seq<nat>)
    ensures Accepts(DescriptorOf(Percentage).value.inputs, counts) <==> counts == [1, 1]
    ensures Accepts(DescriptorOf(Op.Sort).value.inputs, counts) <==>
      |counts| == 2 && counts[0] >= 1 && counts[1] == 1
  {
    if counts == [1, 1] {
      assert Admits(One([Quantity]), counts[0]) && Admits(One([Quantity]), counts[1]);
    }
    if |counts| == 2 && counts[0] >= 1 && counts[1] == 1 {
      assert Admits(AtLeast(1, [Attribute]), counts[0]) && Admits(One([String]), counts[1]);
    }
  }

  /** Return takes its collect, then an optional filter and an optional sort. */
  lemma ReturnArity(counts: seq<nat>)
    ensures Accepts(DescriptorOf(Return).value.inputs, counts) <==>
      |counts| == 3 && counts[0] == 1 && counts[1] <= 1 && counts[2] <= 1
  {
    var gs := DescriptorOf(Return).value.inputs;
    if |counts| == 3 && counts[0] == 1 && counts[1] <= 1 && counts[2] <= 1 {
      assert Admits(gs[0], counts[0]) && Admits(gs[1], counts[1]) && Admits(gs[2], counts[2]);
    }
  }

  /** The positional templates mention `{0}` (and `{1}` for the binary ones), never `{target}`. */
  lemma PositionalTemplates(op: Op)
    requires op in {Abs, Sqrt, Op.RowNum, PercentChange, Add, Percentage, LessThanEq}
    ensures DescriptorOf(op).value.template.Some?
    ensures Slots(DescriptorOf(op).value.template.value) ==
      if op in {Abs, Sqrt, Op.RowNum} then {0} else {0, 1}
    ensures !HasTarget(DescriptorOf(op).value.template.value)
  {
    if op in {Abs, Sqrt, Op.RowNum} {
      UnaryTemplate(op);
    } else if op in {PercentChange, Percentage} {
      InfixTemplate(op, 1, 3);
    } else {
      InfixTemplate(op, 0, 2);
    }
  }

  lemma UnaryTemplate(op: Op)
    requires op in {Abs, Sqrt, Op.RowNum}
    ensures DescriptorOf(op).value.template.Some?
    ensures Slots(DescriptorOf(op).value.template.value) == {0}
    ensures !HasTarget(DescriptorOf(op).value.template.value)
  {
    var t := DescriptorOf(op).value.template.value;
    assert |t| == 2 && t[0].Lit? && t[1] == Slot(0);
  }

  /** Two-operand templates, with `{0}` at `i` and `{1}` at `j` and literal text elsewhere. */
  lemma InfixTemplate(op: Op, i: nat, j: nat)
    requires op in {PercentChange, Percentage} ==> i == 1 && j == 3
    requires op in {Add, LessThanEq} ==> i == 0 && j == 2
    requires op in {PercentChange, Percentage, Add, LessThanEq}
    ensures DescriptorOf(op).value.template.Some?
    ensures Slots(DescriptorOf(op).value.template.value) == {0, 1}
    ensures !HasTarget(DescriptorOf(op).value.template.value)
  {
    var t := DescriptorOf(op).value.template.value;
    assert t[i] == Slot(0) && t[j] == Slot(1);
    assert forall k :: 0 <= k < |t| && k != i && k != j ==> t[k].Lit?;
  }

  /** The templates spell the strings the classes define. */
  lemma RenderAdd()
    ensures Render(DescriptorOf(Add).value.template.value) == "{0} plus {1}"
  {
    assert DescriptorOf(Add).value.template.value == [Slot(0), Lit(" plus "), Slot(1)];
    RenderBinary(" plus ");
  }

  /** A template `{0}<x>{1}`. */
  lemma RenderBinary(x: string)
    ensures Render([Slot(0), Lit(x), Slot(1)]) == "{0}" + x + "{1}"
  {
    var t := [Slot(0), Lit(x), Slot(1)];
    assert t == [Slot(0)] + ([Lit(x)] + ([Slot(1)] + []));
    RenderCons(Slot(1), []);
    RenderCons(Lit(x), [Slot(1)]);
    RenderCons(Slot(0), [Lit(x)] + [Slot(1)]);
    assert RenderPiece(Slot(0)) == "{0}" by { assert NatToString(0) == "0"; }
    assert RenderPiece(Slot(1)) == "{1}" by { assert NatToString(1) == "1"; }
  }

  lemma RenderCons(p: Piece, t: Template)
    ensures Render([p] + t) == RenderPiece(p) + Render(t)
  {
    assert ([p] + t)[1..] == t;
  }

  lemma RenderStdDev()
    ensures Render(DescriptorOf(StdDev).value.template.value) == "standard deviation of {target}"
  {
  }
}
