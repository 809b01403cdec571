/**
 * `core/Analysis/AnalysisStep.py` and `core/Analysis/AnalysisPlan.py`: a
 * step of an analysis plan, how it prints and compares, and the plan
 * record with its dependency graph, its JSON form and its leaves.
 */
module Steps {

  import opened Wrappers
  import opened Text
  import opened Dicts

  /** An `AnalysisStep`: the constructor stores its reference, operation and arguments. */
  datatype Step = Step(ref: string, operation: string, args: seq<string>)

  /** `AnalysisStep.__repr__`: the operation and the arguments, space-separated, in parentheses. */
  function Repr(s: Step): string
  {
    "(" + s.operation + " " + Join(" ", s.args) + ")"
  }

  /** `AnalysisStep.__eq__`: steps are equal when they print the same. */
  predicate StepEq(a: Step, b: Step)
  {
    Repr(a) == Repr(b)
  }

  /** A step without arguments prints as `(op )`. */
  lemma ReprNoArgs(ref: string, op: string)
    ensures Repr(Step(ref, op, [])) == "(" + op + " )"
  {
  }

  /** Step equality ignores the reference, and is an equivalence relation. */
  lemma StepEqEquivalence(a: Step, b: Step, c: Step, r: string)
    ensures StepEq(a, a.(ref := r))
    ensures StepEq(a, b) ==> StepEq(b, a)
    ensures StepEq(a, b) && StepEq(b, c) ==> StepEq(a, c)
  {
  }

  /**
   * For operation names without a space, two steps are equal exactly when
   * they have the same operation and their arguments print the same.
   */
  lemma StepEqIff(a: Step, b: Step)
    requires ' ' !in a.operation && ' ' !in b.operation
    ensures StepEq(a, b) <==> a.operation == b.operation && Join(" ", a.args) == Join(" ", b.args)
  {
    if StepEq(a, b) {
      var ra, rb := Repr(a), Repr(b);
      var m, n := |a.operation|, |b.operation|;
      assert ra[1 + m] == ' ';
      assert rb[1 + n] == ' ';
      assert a.operation == ra[1..1 + m] == rb[1..1 + n] == b.operation;
      assert Join(" ", a.args) == ra[2 + m..|ra| - 1] == rb[2 + n..|rb| - 1] == Join(" ", b.args);
    }
  }

  /** The plan's steps, keyed by reference, in insertion order. */
  type Plan = Dict<Step>

  /** Every key names its own step, and no key repeats. */
  predicate WellKeyed(p: Plan)
  {
    DistinctKeys(p) && forall i :: 0 <= i < |p| ==> p[i].1.ref == p[i].0
  }

  /** Two steps of the plan with the same reference are the same step. */
  predicate UniqueRefs(p: Plan)
  {
    forall i, j :: 0 <= i < |p| && 0 <= j < |p| && p[i].1.ref == p[j].1.ref ==> p[i].1 == p[j].1
  }

  lemma WellKeyedUniqueRefs(p: Plan)
    requires WellKeyed(p)
    ensures UniqueRefs(p)
  {
  }

  /** The steps of the plan (its dictionary values), as a set. */
  function StepSet(p: Plan): set<Step>
  {
    set i | 0 <= i < |p| :: p[i].1
  }

  /**
   * A `networkx.DiGraph` as the core uses it: nodes in insertion order and
   * a set of directed edges (adding an edge twice keeps one).
   */
  datatype Graph = Graph(nodes: seq<string>, edges: set<(string, string)>)

  /** `G.add_node(n)`: a node already present is kept where it is. */
  function AddNode(g: Graph, n: string): (r: Graph)
  {
    if n in g.nodes then g else g.(nodes := g.nodes + [n])
  }

  /** `G.add_edge(u, v)`: adds the endpoints that are missing, then the edge. */
  function AddEdge(g: Graph, u: string, v: string): (r: Graph)
  {
    var h := AddNode(AddNode(g, u), v);
    h.(edges := h.edges + {(u, v)})
  }

  /** `G.out_degree(n) == 0`. */
  predicate IsSink(edges: set<(string, string)>, n: string)
  {
    forall e :: e in edges ==> e.0 != n
  }

  /** `nodes[i]` is the first node with out-degree 0. */
  predicate FirstSinkAt(nodes: seq<string>, edges: set<(string, string)>, i: int)
  {
    0 <= i < |nodes| && IsSink(edges, nodes[i]) && forall j :: 0 <= j < i ==> !IsSink(edges, nodes[j])
  }

  /** The nodes of `nodes` with out-degree 0, in node order. */
  function Leaves(nodes: seq<string>, edges: set<(string, string)>): (r: seq<string>)
    ensures forall n :: n in r <==> n in nodes && IsSink(edges, n)
    ensures r != [] ==> exists i :: FirstSinkAt(nodes, edges, i) && nodes[i] == r[0]
  {
    if nodes == [] then []
    else
      var rest := Leaves(nodes[1..], edges);
      if IsSink(edges, nodes[0]) then
        [nodes[0]] + rest
      else
        assert rest != [] ==> exists i :: FirstSinkAt(nodes, edges, i) && nodes[i] == rest[0] by {
          if rest != [] {
            var i :| FirstSinkAt(nodes[1..], edges, i) && nodes[1..][i] == rest[0];
            assert nodes[i + 1] == rest[0];
            forall j | 0 <= j < i + 1 ensures !IsSink(edges, nodes[j]) {
              if j > 0 { assert nodes[j] == nodes[1..][j - 1]; }
            }
          }
        }
        rest
  }

  /**
   * `AnalysisPlan.get_leaves` (and the identical `AnalysisPlanParser.get_leaves`):
   * the nodes with out-degree 0, in node order.
   */
  function GetLeaves(g: Graph): (r: seq<string>)
    ensures forall n :: n in r <==> n in g.nodes && IsSink(g.edges, n)
    ensures r != [] ==> exists i :: FirstSinkAt(g.nodes, g.edges, i) && g.nodes[i] == r[0]
  {
    Leaves(g.nodes, g.edges)
  }

  /** The plan record: its steps, its graph, and its subplans keyed by alias. */
  datatype AnalysisPlan = AnalysisPlan(steps: Plan, graph: Graph, subplans: Dict<Plan>)

  /** `AnalysisPlan.to_json`: each step reference mapped to the step's repr. */
  function ToJson(p: Plan): (j: Dict<string>)
    ensures Keys(j) == Keys(p)
  {
    if p == [] then [] else [(p[0].0, Repr(p[0].1))] + ToJson(p[1..])
  }

  /** Each key of the JSON form looks up the repr of the step it looks up in the plan. */
  lemma {:induction false} ToJsonGet(p: Plan, k: string)
    ensures Get(ToJson(p), k) == match Get(p, k) case None => None case Some(s) => Some(Repr(s))
  {
    if p != [] && p[0].0 != k {
      ToJsonGet(p[1..], k);
    }
  }

  /** The JSON form of a dictionary is a dictionary. */
  lemma ToJsonDistinct(p: Plan)
    requires DistinctKeys(p)
    ensures DistinctKeys(ToJson(p))
  {
    var j := ToJson(p);
    forall a, b | 0 <= a < b < |j| ensures j[a].0 != j[b].0 {
      assert Keys(j)[a] == Keys(p)[a];
      assert Keys(j)[b] == Keys(p)[b];
    }
  }
}
