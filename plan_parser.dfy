/**
 * `core/Planning/AnalysisPlanParser.py`, first half: from step texts to
 * steps, the parents of a step, and the dependency graph of a plan.
 */
module PlanParser {

  import opened Wrappers
  import opened Text
  import opened Dicts
  import opened ApiUtils
  import opened StepLexer
  import opened Steps

  // ---------------------------------------------------------------------------
  // create_analysis_steps
  // ---------------------------------------------------------------------------

  /**
   * One step text: parentheses deleted, the rest split shell-style; the
   * first word is the operation, the others are the arguments in order.
   * An empty text has no first word (IndexError).
   */
  function ParseStep(ref: string, text: string): (r: Result<Step>)
    ensures r.Ok? ==> r.value.ref == ref
    ensures r.Ok? ==> ShlexSplit(RemoveParens(text)) == Ok([r.value.operation] + r.value.args)
    ensures ShlexSplit(RemoveParens(text)).Err? ==> r == Err(ShlexSplit(RemoveParens(text)).error)
    ensures ShlexSplit(RemoveParens(text)) == Ok([]) ==> r == Err(IndexError)
  {
    var words :- ShlexSplit(RemoveParens(text));
    if words == [] then Err(IndexError)
    else
      assert words == [words[0]] + words[1..];
      Ok(Step(ref, words[0], words[1..]))
  }

  /** No word of a parsed step holds a parenthesis, not even a quoted one. */
  lemma ParsedParenFree(ref: string, text: string)
    requires ParseStep(ref, text).Ok?
    ensures ParenFree(ParseStep(ref, text).value.operation)
    ensures forall a :: a in ParseStep(ref, text).value.args ==> ParenFree(a)
  {
    var bare := RemoveParens(text);
    var s := ParseStep(ref, text).value;
    SplitFromText(bare);
    assert s.operation in ShlexSplit(bare).value;
    forall a | a in s.args ensures ParenFree(a) {
      assert a in ShlexSplit(bare).value;
    }
  }

  /**
   * `create_analysis_steps`: each text of the raw plan parsed under its
   * own reference, in the plan's order; the first text that does not
   * parse raises its error.
   */
  method CreateAnalysisSteps(raw: Dict<string>) returns (r: Result<Plan>)
    requires DistinctKeys(raw)
    ensures r.Ok? <==> forall i :: 0 <= i < |raw| ==> ParseStep(raw[i].0, raw[i].1).Ok?
    ensures r.Ok? ==> |r.value| == |raw|
    ensures r.Ok? ==> forall i :: 0 <= i < |raw| ==>
      r.value[i] == (raw[i].0, ParseStep(raw[i].0, raw[i].1).value)
    ensures r.Ok? ==> WellKeyed(r.value)
    ensures r.Err? ==> exists i :: 0 <= i < |raw| && ParseStep(raw[i].0, raw[i].1) == Err(r.error)
  {
    var steps: Plan := [];
    var i := 0;
    while i < |raw|
      invariant 0 <= i <= |raw|
      invariant |steps| == i
      invariant forall k :: 0 <= k < i ==> ParseStep(raw[k].0, raw[k].1).Ok?
      invariant forall k :: 0 <= k < i ==> steps[k] == (raw[k].0, ParseStep(raw[k].0, raw[k].1).value)
    {
      var step := ParseStep(raw[i].0, raw[i].1);
      if step.Err? {
        return Err(step.error);
      }
      steps := steps + [(raw[i].0, step.value)];
      i := i + 1;
    }
    return Ok(steps);
  }

  /** A step whose operation and arguments are plain words. */
  predicate PlainStep(s: Step)
  {
    Plain(s.operation) && forall a :: a in s.args ==> Plain(a)
  }

  lemma {:induction false} JoinParenFree(ws: seq<string>)
    requires forall a :: a in ws ==> Plain(a)
    ensures ParenFree(Join(" ", ws))
  {
    if |ws| > 1 {
      JoinParenFree(ws[1..]);
      var rest := Join(" ", ws[1..]);
      assert Plain(ws[0]);
      forall k | 0 <= k < |ws[0] + " " + rest| ensures !IsParen((ws[0] + " " + rest)[k]) {
        if k < |ws[0]| {
          assert (ws[0] + " " + rest)[k] == ws[0][k];
        } else if k > |ws[0]| {
          assert (ws[0] + " " + rest)[k] == rest[k - |ws[0]| - 1];
        }
      }
    } else if |ws| == 1 {
      assert ws[0] in ws;
    }
  }

  /**
   * `to_json` and `create_analysis_steps` are inverse on plain steps: the
   * repr of a step parses back into its operation and arguments.
   */
  lemma ParseRepr(k: string, s: Step)
    requires PlainStep(s)
    ensures ParseStep(k, Repr(s)) == Ok(Step(k, s.operation, s.args))
  {
    ReprUnwrapped(s);
    assert forall i :: 0 <= i < |s.args| ==> Plain(s.args[i]) by {
      forall i | 0 <= i < |s.args| ensures Plain(s.args[i]) { assert s.args[i] in s.args; }
    }
    SplitWords(s.operation, s.args);
  }

  /** Deleting the parentheses of a plain step's repr leaves its words joined by spaces. */
  lemma ReprUnwrapped(s: Step)
    requires PlainStep(s)
    ensures RemoveParens(Repr(s)) == s.operation + " " + Join(" ", s.args)
  {
    var body := s.operation + " " + Join(" ", s.args);
    assert Repr(s) == "(" + (body + ")");
    ParensVanish();
    BodyParenFree(s);
    RemoveParensFixes(body);
    RemoveParensConcat(body, ")");
    assert RemoveParens(body + ")") == body;
    RemoveParensConcat("(", body + ")");
  }

  lemma ParensVanish()
    ensures RemoveParens("(") == [] && RemoveParens(")") == []
  {
    assert "("[1..] == [] && ")"[1..] == [];
  }

  lemma BodyParenFree(s: Step)
    requires PlainStep(s)
    ensures ParenFree(s.operation + " " + Join(" ", s.args))
  {
    JoinParenFree(s.args);
    RemoveParensConcat(s.operation + " ", Join(" ", s.args));
    assert ParenFree(s.operation + " ") by {
      assert forall j :: 0 <= j < |s.operation| ==> (s.operation + " ")[j] == s.operation[j];
    }
    RemoveParensFixes(s.operation + " ");
    RemoveParensFixes(Join(" ", s.args));
  }

  /** So on plain steps `__eq__` is equality of operation and arguments. */
  lemma StepEqPlain(a: Step, b: Step)
    requires PlainStep(a) && PlainStep(b)
    ensures StepEq(a, b) <==> a.operation == b.operation && a.args == b.args
  {
    if StepEq(a, b) {
      ParseRepr("", a);
      ParseRepr("", b);
    }
  }

  // ---------------------------------------------------------------------------
  // get_parents
  // ---------------------------------------------------------------------------

  /** Argument `i` of an `op` step links to a parent: a reference, and the first argument of `retrieve_attribute`. */
  predicate LinksThrough(op: string, i: nat, arg: string)
  {
    IsArgReference(arg) && (op != "retrieve_attribute" || i == 0)
  }

  /** The arguments of a step that name its parents, in argument order. */
  function ParentRefs(op: string, args: seq<string>): (r: seq<string>)
    ensures |r| <= |args|
    ensures forall a :: a in r <==> exists i :: 0 <= i < |args| && args[i] == a && LinksThrough(op, i, a)
    decreases |args|
  {
    if args == [] then []
    else
      var n := |args| - 1;
      var front := ParentRefs(op, args[..n]);
      assert forall i :: 0 <= i < n ==> args[..n][i] == args[i];
      front + if LinksThrough(op, n, args[n]) then [args[n]] else []
  }

  /** Outside `retrieve_attribute`, the parent references of joined argument lists are joined. */
  lemma {:induction false} ParentRefsAppend(op: string, a: seq<string>, b: seq<string>)
    requires op != "retrieve_attribute"
    ensures ParentRefs(op, a + b) == ParentRefs(op, a) + ParentRefs(op, b)
    decreases |b|
  {
    if b == [] {
      assert a + b == a;
    } else {
      var n := |b| - 1;
      assert (a + b)[..|a + b| - 1] == a + b[..n];
      assert (a + b)[|a + b| - 1] == b[n];
      ParentRefsAppend(op, a, b[..n]);
    }
  }

  /** Outside `retrieve_attribute`, a single argument is a parent reference iff it is a reference. */
  lemma ParentRefsOne(op: string, x: string)
    requires op != "retrieve_attribute"
    ensures ParentRefs(op, [x]) == if IsArgReference(x) then [x] else []
  {
    assert [x][..0] == [];
  }

  /** A `retrieve_attribute` step has at most its first argument as a parent reference. */
  lemma {:induction false} RetrieveAttributeParents(args: seq<string>)
    ensures ParentRefs("retrieve_attribute", args) ==
      if args != [] && IsArgReference(args[0]) then [args[0]] else []
    decreases |args|
  {
    if |args| > 1 {
      var n := |args| - 1;
      RetrieveAttributeParents(args[..n]);
      assert args[..n][0] == args[0];
    } else if |args| == 1 {
      assert args[..0] == [];
    }
  }

  /** `[all_steps[ref] for ref in refs]`: the first missing reference raises KeyError. */
  function Fetch(refs: seq<string>, all: Plan): (r: Result<seq<Step>>)
    ensures r.Ok? <==> forall i :: 0 <= i < |refs| ==> HasKey(all, refs[i])
    ensures r.Ok? ==> |r.value| == |refs|
    ensures r.Ok? ==> forall i :: 0 <= i < |refs| ==> Get(all, refs[i]) == Some(r.value[i])
    ensures r.Err? ==> r.error.KeyError? && r.error.key in refs && !HasKey(all, r.error.key)
  {
    if refs == [] then Ok([])
    else
      match Get(all, refs[0])
      case None => Err(KeyError(refs[0]))
      case Some(s) =>
        var rest := Fetch(refs[1..], all);
        assert forall i :: 1 <= i < |refs| ==> refs[i] == refs[1..][i - 1];
        if rest.Err? then
          assert rest.error.key in refs;
          Err(rest.error)
        else
          Ok([s] + rest.value)
  }

  /** `get_parents`: the steps named by the step's parent references, in argument order. */
  function GetParents(step: Step, all: Plan): (r: Result<seq<Step>>)
    ensures r.Ok? <==> forall a :: a in ParentRefs(step.operation, step.args) ==> HasKey(all, a)
  {
    Fetch(ParentRefs(step.operation, step.args), all)
  }

  /** The parents found are the steps the parent references look up, so steps of the plan. */
  lemma GetParentsFound(step: Step, all: Plan)
    requires GetParents(step, all).Ok?
    ensures |GetParents(step, all).value| == |ParentRefs(step.operation, step.args)|
    ensures forall i :: 0 <= i < |GetParents(step, all).value| ==>
      Get(all, ParentRefs(step.operation, step.args)[i]) == Some(GetParents(step, all).value[i])
    ensures forall p :: p in GetParents(step, all).value ==> p in StepSet(all)
  {
    FetchedSteps(ParentRefs(step.operation, step.args), all);
  }

  /** A parent reference that is not a key of the plan raises KeyError. */
  lemma GetParentsMissing(step: Step, all: Plan)
    requires GetParents(step, all).Err?
    ensures GetParents(step, all).error.KeyError? && !HasKey(all, GetParents(step, all).error.key)
  {
  }

  lemma FetchedSteps(refs: seq<string>, all: Plan)
    ensures Fetch(refs, all).Ok? ==> forall p :: p in Fetch(refs, all).value ==> p in StepSet(all)
  {
    var r := Fetch(refs, all);
    if r.Ok? {
      forall p | p in r.value ensures p in StepSet(all) {
        var i :| 0 <= i < |r.value| && r.value[i] == p;
        assert Get(all, refs[i]) == Some(p);
      }
    }
  }

  // ---------------------------------------------------------------------------
  // create_plan_graph
  // ---------------------------------------------------------------------------

  /** The parents of step `i`, or none when they cannot be fetched. */
  function ParentsOf(steps: Plan, i: nat): seq<Step>
    requires i < |steps|
  {
    match GetParents(steps[i].1, steps)
    case Ok(ps) => ps
    case Err(_) => []
  }

  /** The parents of every step, in plan order. */
  function ParentLists(steps: Plan): (pss: seq<seq<Step>>)
    ensures |pss| == |steps|
  {
    seq(|steps|, i requires 0 <= i < |steps| => ParentsOf(steps, i))
  }

  /** An edge from each of `pss[k]` to `kids[k]`, for every `k`. */
  function EdgesFrom(pss: seq<seq<Step>>, kids: seq<string>): set<(string, string)>
    requires |pss| == |kids|
  {
    if pss == [] then {}
    else
      var n := |pss| - 1;
      EdgesFrom(pss[..n], kids[..n]) + EdgesInto(pss[n], kids[n])
  }

  /** An edge from each of `ps` to `child`. */
  function EdgesInto(ps: seq<Step>, child: string): (es: set<(string, string)>)
  {
    if ps == [] then {} else EdgesInto(ps[..|ps| - 1], child) + {(ps[|ps| - 1].ref, child)}
  }

  /** One edge from each parent to its child step. */
  function PlanEdges(steps: Plan): set<(string, string)>
  {
    EdgesFrom(ParentLists(steps), Keys(steps))
  }

  lemma {:induction false} EdgesIntoAre(ps: seq<Step>, child: string, e: (string, string))
    ensures e in EdgesInto(ps, child) <==> e.1 == child && exists j :: 0 <= j < |ps| && ps[j].ref == e.0
    decreases |ps|
  {
    if ps != [] {
      var n := |ps| - 1;
      EdgesIntoAre(ps[..n], child, e);
      if e.1 == child && (exists j :: 0 <= j < |ps| && ps[j].ref == e.0) {
        var j :| 0 <= j < |ps| && ps[j].ref == e.0;
        if j < n { assert ps[..n][j] == ps[j]; }
      }
    }
  }

  /** `e` is the edge from parent `j` of entry `k` to child `k`. */
  predicate EdgeAt(pss: seq<seq<Step>>, kids: seq<string>, k: int, j: int, e: (string, string))
    requires |pss| == |kids|
  {
    0 <= k < |pss| && 0 <= j < |pss[k]| && e == (pss[k][j].ref, kids[k])
  }

  lemma {:induction false} EdgesFromAre(pss: seq<seq<Step>>, kids: seq<string>, e: (string, string))
    requires |pss| == |kids|
    ensures e in EdgesFrom(pss, kids) <==> exists k, j :: EdgeAt(pss, kids, k, j, e)
    decreases |pss|
  {
    if pss != [] {
      var n := |pss| - 1;
      EdgesFromAre(pss[..n], kids[..n], e);
      EdgesIntoAre(pss[n], kids[n], e);
      if e in EdgesInto(pss[n], kids[n]) {
        var j :| 0 <= j < |pss[n]| && pss[n][j].ref == e.0;
        assert EdgeAt(pss, kids, n, j, e);
      }
      if e in EdgesFrom(pss[..n], kids[..n]) {
        var k, j :| EdgeAt(pss[..n], kids[..n], k, j, e);
        assert EdgeAt(pss, kids, k, j, e);
      }
      if exists k, j :: EdgeAt(pss, kids, k, j, e) {
        var k, j :| EdgeAt(pss, kids, k, j, e);
        if k < n {
          assert EdgeAt(pss[..n], kids[..n], k, j, e);
        } else {
          assert e in EdgesInto(pss[n], kids[n]);
        }
      }
    }
  }

  /** `e` is the edge from parent `j` of step `k` to step `k`. */
  predicate EdgeOf(steps: Plan, k: int, j: int, e: (string, string))
  {
    0 <= k < |steps| && 0 <= j < |ParentsOf(steps, k)| && e == (ParentsOf(steps, k)[j].ref, steps[k].0)
  }

  /**
   * The graph of a plan has an edge `u -> v` exactly when `v` is a step and
   * `u` is the reference of one of its parents.
   */
  lemma PlanEdgesAre(steps: Plan, u: string, v: string)
    ensures (u, v) in PlanEdges(steps) <==> exists k, j :: EdgeOf(steps, k, j, (u, v))
  {
    var pss, kids := ParentLists(steps), Keys(steps);
    EdgesFromAre(pss, kids, (u, v));
    if exists k, j :: EdgeAt(pss, kids, k, j, (u, v)) {
      var k, j :| EdgeAt(pss, kids, k, j, (u, v));
      assert EdgeOf(steps, k, j, (u, v));
    }
    if exists k, j :: EdgeOf(steps, k, j, (u, v)) {
      var k, j :| EdgeOf(steps, k, j, (u, v));
      assert EdgeAt(pss, kids, k, j, (u, v));
    }
  }

  /**
   * `create_plan_graph`: one node per step in plan order, then one edge
   * from each parent to its child (an edge's missing endpoint becomes a
   * node); a parent reference that is not a key raises KeyError.
   */
  method CreatePlanGraph(steps: Plan) returns (r: Result<Graph>)
    requires DistinctKeys(steps)
    ensures r.Ok? <==> forall i :: 0 <= i < |steps| ==> GetParents(steps[i].1, steps).Ok?
    ensures r.Err? ==> exists i :: 0 <= i < |steps| && GetParents(steps[i].1, steps) == Err(r.error)
    ensures r.Ok? ==> r.value.edges == PlanEdges(steps)
    ensures r.Ok? ==> StepNodesFirst(r.value.nodes, steps)
  {
    var g := AddStepNodes(steps);
    LinkStart(g, steps);
    var i := 0;
    while i < |steps|
      invariant Linked(g, steps, i)
    {
      var next := LinkParents(g, steps, i);
      if next.Err? {
        return Err(next.error);
      }
      LinkStep(g, next.value, steps, i);
      g := next.value;
      i := i + 1;
    }
    LinkDone(g, steps);
    return Ok(g);
  }

  /** The graph after the edges into the first `i` steps are added. */
  predicate Linked(g: Graph, steps: Plan, i: int)
  {
    0 <= i <= |steps| && (forall k :: 0 <= k < i ==> GetParents(steps[k].1, steps).Ok?)
    && g.edges == EdgesFrom(ParentLists(steps)[..i], Keys(steps)[..i])
    && StepNodesFirst(g.nodes, steps)
  }

  lemma LinkStart(g: Graph, steps: Plan)
    requires g == Graph(Keys(steps), {})
    ensures Linked(g, steps, 0)
  {
    assert Keys(steps)[..|steps|] == Keys(steps);
  }

  lemma LinkStep(g: Graph, h: Graph, steps: Plan, i: int)
    requires Linked(g, steps, i) && i < |steps| && GetParents(steps[i].1, steps).Ok?
    requires h.edges == g.edges + EdgesInto(GetParents(steps[i].1, steps).value, steps[i].0)
    requires StepNodesFirst(h.nodes, steps)
    ensures Linked(h, steps, i + 1)
  {
    PlanEdgesStep(steps, i);
  }

  lemma LinkDone(g: Graph, steps: Plan)
    requires Linked(g, steps, |steps|)
    ensures forall i :: 0 <= i < |steps| ==> GetParents(steps[i].1, steps).Ok?
    ensures g.edges == PlanEdges(steps) && StepNodesFirst(g.nodes, steps)
  {
    PlanEdgesAll(steps);
  }

  /** The edges of the first `i + 1` steps add those into step `i`. */
  lemma PlanEdgesStep(steps: Plan, i: nat)
    requires i < |steps| && GetParents(steps[i].1, steps).Ok?
    ensures EdgesFrom(ParentLists(steps)[..i + 1], Keys(steps)[..i + 1]) ==
      EdgesFrom(ParentLists(steps)[..i], Keys(steps)[..i]) + EdgesInto(GetParents(steps[i].1, steps).value, steps[i].0)
  {
    var pss, ks := ParentLists(steps), Keys(steps);
    var pss', ks' := pss[..i + 1], ks[..i + 1];
    assert |pss'| - 1 == i && pss'[..i] == pss[..i] && ks'[..i] == ks[..i];
    assert pss'[i] == ParentsOf(steps, i) == GetParents(steps[i].1, steps).value;
    assert ks'[i] == steps[i].0;
  }

  lemma PlanEdgesAll(steps: Plan)
    ensures EdgesFrom(ParentLists(steps)[..|steps|], Keys(steps)[..|steps|]) == PlanEdges(steps)
  {
    assert ParentLists(steps)[..|steps|] == ParentLists(steps);
    assert Keys(steps)[..|steps|] == Keys(steps);
  }

  /** One pass of the second loop of `create_plan_graph`: the parents of step `i`, and their edges. */
  method LinkParents(g: Graph, steps: Plan, i: nat) returns (r: Result<Graph>)
    requires i < |steps| && StepNodesFirst(g.nodes, steps)
    ensures r.Ok? <==> GetParents(steps[i].1, steps).Ok?
    ensures r.Err? ==> GetParents(steps[i].1, steps) == Err(r.error)
    ensures r.Ok? ==> r.value.edges == g.edges + EdgesInto(GetParents(steps[i].1, steps).value, steps[i].0)
    ensures r.Ok? ==> StepNodesFirst(r.value.nodes, steps)
  {
    var ps := GetParents(steps[i].1, steps);
    if ps.Err? {
      return Err(ps.error);
    }
    GetParentsFound(steps[i].1, steps);
    var h := AddParentEdges(g, steps, i, ps.value);
    return Ok(h);
  }

  /**
   * The nodes start with the step keys in plan order; when every key names
   * its own step, those are all the nodes.
   */
  predicate StepNodesFirst(nodes: seq<string>, steps: Plan)
  {
    |steps| <= |nodes| && nodes[..|steps|] == Keys(steps) && (WellKeyed(steps) ==> nodes == Keys(steps))
  }

  /** The first loop of `create_plan_graph`: a node per step, in plan order. */
  method AddStepNodes(steps: Plan) returns (g: Graph)
    requires DistinctKeys(steps)
    ensures g == Graph(Keys(steps), {})
  {
    g := Graph([], {});
    var i := 0;
    while i < |steps|
      invariant 0 <= i <= |steps|
      invariant g == Graph(Keys(steps)[..i], {})
    {
      assert steps[i].0 !in Keys(steps)[..i];
      assert Keys(steps)[..i + 1] == Keys(steps)[..i] + [steps[i].0];
      g := AddNode(g, steps[i].0);
      i := i + 1;
    }
    assert Keys(steps)[..|steps|] == Keys(steps);
  }

  /** The inner loop of `create_plan_graph`: an edge from each parent of step `i`. */
  method AddParentEdges(g0: Graph, steps: Plan, i: nat, ps: seq<Step>) returns (g: Graph)
    requires i < |steps| && forall p :: p in ps ==> p in StepSet(steps)
    requires StepNodesFirst(g0.nodes, steps)
    ensures g.edges == g0.edges + EdgesInto(ps, steps[i].0)
    ensures StepNodesFirst(g.nodes, steps)
  {
    g := g0;
    var j := 0;
    while j < |ps|
      invariant 0 <= j <= |ps|
      invariant g.edges == g0.edges + EdgesInto(ps[..j], steps[i].0)
      invariant StepNodesFirst(g.nodes, steps)
    {
      assert ps[j] in ps;
      g := AddParentEdge(g, steps, i, ps[j]);
      assert ps[..j + 1][..j] == ps[..j];
      j := j + 1;
    }
    assert ps[..j] == ps;
  }

  /** One `add_edge` of `create_plan_graph`: the child's node is already there. */
  method AddParentEdge(g: Graph, steps: Plan, i: nat, p: Step) returns (h: Graph)
    requires i < |steps| && p in StepSet(steps)
    requires StepNodesFirst(g.nodes, steps)
    ensures h.edges == g.edges + {(p.ref, steps[i].0)}
    ensures StepNodesFirst(h.nodes, steps)
  {
    var child := steps[i].0;
    assert child == Keys(steps)[i] && child in g.nodes[..|steps|];
    h := AddEdge(g, p.ref, child);
    assert (g.nodes + [p.ref])[..|steps|] == g.nodes[..|steps|];
    if WellKeyed(steps) {
      var m :| 0 <= m < |steps| && steps[m].1 == p;
      assert p.ref == Keys(steps)[m];
    }
  }
}
