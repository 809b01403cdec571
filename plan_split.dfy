/**
 * `core/Planning/AnalysisPlanParser.py`, second half: cutting a plan into
 * subplans at its return steps, dropping duplicate subplans, and the
 * `parse` entry points that chain the whole parser together.
 */
module PlanSplit {

  import opened Wrappers
  import opened Chars
  import opened Text
  import opened Dicts
  import opened Ontology
  import opened Steps
  import opened PlanParser

  // ---------------------------------------------------------------------------
  // Aliases
  // ---------------------------------------------------------------------------

  /** `f'alias_{n}'`, the key of a subplan. */
  function AliasName(n: nat): string
  {
    "alias_" + NatToString(n)
  }

  /** `is_arg_alias`: an alias is any string that begins with `alias_`. */
  predicate IsArgAlias(arg: string)
  {
    StartsWith(arg, "alias_")
  }

  /** Every subplan key is an alias, and different indices give different keys. */
  lemma AliasNames(m: nat, n: nat)
    ensures IsArgAlias(AliasName(m))
    ensures AliasName(m) == AliasName(n) <==> m == n
  {
    if AliasName(m) == AliasName(n) {
      assert NatToString(m) == AliasName(m)[6..];
      assert NatToString(n) == AliasName(n)[6..];
      NatToStringInjective(m, n);
    }
  }

  /** The subplan dictionary holds `alias_0`, `alias_1`, ... in that order. */
  predicate AliasKeyed(d: Dict<Plan>)
  {
    forall k :: 0 <= k < |d| ==> d[k].0 == AliasName(k)
  }

  /** The next alias is not a key yet, so assigning it appends. */
  lemma NextAliasFresh(d: Dict<Plan>, p: Plan)
    requires AliasKeyed(d)
    ensures Put(d, AliasName(|d|), p) == d + [(AliasName(|d|), p)]
    ensures AliasKeyed(d + [(AliasName(|d|), p)])
  {
    forall k | 0 <= k < |d| ensures d[k].0 != AliasName(|d|) {
      AliasNames(k, |d|);
    }
  }

  // ---------------------------------------------------------------------------
  // What a subplan is
  // ---------------------------------------------------------------------------

  /** A return step: by `Ontology.ReturnIsReturn`, the one return operation is `return`. */
  predicate ReturnStep(s: Step)
  {
    s.operation == "return"
  }

  /** `p` is one of the parents `get_parents` finds for `s`. */
  predicate ParentOf(p: Step, s: Step, all: Plan)
  {
    GetParents(s, all).Ok? && p in GetParents(s, all).value
  }

  /** Step `i` of the subplan is a parent of a step before it. */
  ghost predicate ReachedAt(d: Plan, i: int, all: Plan)
  {
    0 <= i < |d| && exists j :: 0 <= j < i && ParentOf(d[i].1, d[j].1, all)
  }

  /** Every step after the first was reached as a parent of an earlier one. */
  ghost predicate Rooted(d: Plan, all: Plan)
  {
    forall i :: 1 <= i < |d| ==> ReachedAt(d, i, all)
  }

  /** `s` is a parent of some step of the subplan. */
  ghost predicate ParentIn(s: Step, d: Plan, all: Plan)
  {
    exists j :: 0 <= j < |d| && ParentOf(s, d[j].1, all)
  }

  /** Every parent of a step of the subplan is in it, or is a return step (the root of another subplan). */
  ghost predicate Closed(d: Plan, all: Plan)
  {
    forall i, p :: 0 <= i < |d| && ParentOf(p, d[i].1, all) ==> HasKey(d, p.ref) || ReturnStep(p)
  }

  /**
   * A subplan: a return step first, then the non-return steps above it,
   * each keyed by its reference, each reached through parent links, with
   * no parent left out.
   */
  ghost predicate ValidSubplan(d: Plan, all: Plan)
  {
    |d| > 0 && ReturnStep(d[0].1) && WellKeyed(d)
    && (forall i :: 0 <= i < |d| ==> d[i].1 in StepSet(all) && GetParents(d[i].1, all).Ok?)
    && (forall i :: 1 <= i < |d| ==> !ReturnStep(d[i].1))
    && Rooted(d, all)
    && (WellKeyed(all) ==> Closed(d, all))
  }

  /** Some subplan of `out` from index `lo` on starts at `p`. */
  ghost predicate Spawned(out: Dict<Plan>, lo: nat, p: Step)
  {
    exists k :: lo <= k < |out| && |out[k].1| > 0 && out[k].1[0].1 == p
  }

  /** Every return step that a subplan's steps depend on (other than its own root) has a subplan of its own. */
  ghost predicate ReturnsSpawned(d: Plan, out: Dict<Plan>, lo: nat, all: Plan)
    requires |d| > 0
  {
    forall i, p :: 0 <= i < |d| && ParentOf(p, d[i].1, all) && ReturnStep(p) && p != d[0].1 ==>
      Spawned(out, lo, p)
  }

  /** The subplans of `out` from `lo` on are valid and account for the return steps they depend on. */
  ghost predicate BlockOk(out: Dict<Plan>, lo: nat, all: Plan)
  {
    lo <= |out| && forall k :: lo <= k < |out| ==> EntryOk(out, k, lo, all)
  }

  /** Subplan `k` of `out` is valid and its return steps are split off from `lo` on. */
  ghost predicate EntryOk(out: Dict<Plan>, k: int, lo: nat, all: Plan)
  {
    0 <= k < |out| && ValidSubplan(out[k].1, all)
    && (WellKeyed(all) ==> ReturnsSpawned(out[k].1, out, lo, all))
  }

  lemma SpawnedGrow(out: Dict<Plan>, out2: Dict<Plan>, lo: nat, lo2: nat, p: Step)
    requires Spawned(out, lo2, p) && lo <= lo2 && |out| <= |out2| && out2[..|out|] == out
    ensures Spawned(out2, lo, p)
  {
    var k :| lo2 <= k < |out| && |out[k].1| > 0 && out[k].1[0].1 == p;
    assert out2[k] == out2[..|out|][k];
  }

  /** The subplans a nested call adds after `out` join those already there. */
  lemma BlockJoin(out: Dict<Plan>, out2: Dict<Plan>, lo: nat, all: Plan)
    requires BlockOk(out, lo, all) && BlockOk(out2, |out|, all)
    requires |out| <= |out2| && out2[..|out|] == out
    ensures BlockOk(out2, lo, all)
  {
    forall k | lo <= k < |out2| ensures EntryOk(out2, k, lo, all) {
      if k < |out| {
        assert out2[k] == out2[..|out|][k];
        assert EntryOk(out, k, lo, all);
      } else {
        assert EntryOk(out2, k, |out|, all);
      }
      if WellKeyed(all) {
        forall i, p | 0 <= i < |out2[k].1| && ParentOf(p, out2[k].1[i].1, all) && ReturnStep(p) && p != out2[k].1[0].1
          ensures Spawned(out2, lo, p)
        {
          if k < |out| {
            assert out2[k] == out2[..|out|][k];
            SpawnedGrow(out, out2, lo, lo, p);
          } else {
            SpawnedGrow(out2, out2, lo, |out|, p);
          }
        }
      }
    }
  }

  // ---------------------------------------------------------------------------
  // Ancestry and cycles
  // ---------------------------------------------------------------------------

  /** Each step of the path is a parent of the next. */
  ghost predicate Chain(path: seq<Step>, all: Plan)
  {
    forall i, j :: 0 <= i < |path| && j == i + 1 && j < |path| ==> ParentOf(path[i], path[j], all)
  }

  /** `x` is a proper ancestor of `y`: a chain of one or more parent links leads from `x` to `y`. */
  ghost predicate Ancestor(x: Step, y: Step, all: Plan)
  {
    exists path :: |path| >= 2 && path[0] == x && path[|path| - 1] == y && Chain(path, all)
  }

  /** No step is its own proper ancestor. */
  ghost predicate Acyclic(all: Plan)
  {
    forall p :: !Ancestor(p, p, all)
  }

  /** Every step's parents can be fetched. */
  ghost predicate ParentsPresent(all: Plan)
  {
    forall s :: s in StepSet(all) ==> GetParents(s, all).Ok?
  }

  /** A return step at or above `start` lies on a cycle of parent links. */
  ghost predicate ReturnCycle(start: Step, all: Plan)
  {
    exists p :: ReturnStep(p) && Ancestor(p, p, all) && (p == start || Ancestor(p, start, all))
  }

  lemma ParentAncestor(x: Step, y: Step, all: Plan)
    requires ParentOf(x, y, all)
    ensures Ancestor(x, y, all)
  {
    var path := [x, y];
    assert Chain(path, all);
  }

  lemma AncestorTrans(x: Step, y: Step, z: Step, all: Plan)
    requires Ancestor(x, y, all) && Ancestor(y, z, all)
    ensures Ancestor(x, z, all)
  {
    var p1 :| |p1| >= 2 && p1[0] == x && p1[|p1| - 1] == y && Chain(p1, all);
    var p2 :| |p2| >= 2 && p2[0] == y && p2[|p2| - 1] == z && Chain(p2, all);
    var path := p1 + p2[1..];
    forall i, j | 0 <= i < |path| && j == i + 1 && j < |path| ensures ParentOf(path[i], path[j], all) {
      if j < |p1| {
        assert path[i] == p1[i] && path[j] == p1[j];
      } else if i == |p1| - 1 {
        assert path[i] == p2[0] && path[j] == p2[1];
      } else {
        assert path[i] == p2[i - |p1| + 1] && path[j] == p2[j - |p1| + 1];
      }
    }
    assert path[|path| - 1] == p2[|p2| - 1];
  }

  /** A return cycle above a step is above every step that step is an ancestor of. */
  lemma CycleBelow(node: Step, start: Step, all: Plan)
    requires ReturnCycle(node, all) && Ancestor(node, start, all)
    ensures ReturnCycle(start, all)
  {
    var p :| ReturnStep(p) && Ancestor(p, p, all) && (p == node || Ancestor(p, node, all));
    if p != node {
      AncestorTrans(p, node, start, all);
    }
  }

  /** A plan with a return cycle is not acyclic. */
  lemma CycleNotAcyclic(start: Step, all: Plan)
    requires ReturnCycle(start, all)
    ensures !Acyclic(all)
  {
  }

  /** The steps of the subplan after its root, and those on the stack, are ancestors of the root. */
  ghost predicate Upstream(start: Step, d: Plan, stack: seq<Step>, all: Plan)
  {
    (forall i :: 1 <= i < |d| ==> Ancestor(d[i].1, start, all))
    && (forall s :: s in stack ==> Ancestor(s, start, all))
  }

  lemma UpstreamBegins(start: Step, all: Plan)
    requires GetParents(start, all).Ok?
    ensures Upstream(start, [(start.ref, start)], GetParents(start, all).value, all)
  {
    forall s | s in GetParents(start, all).value ensures Ancestor(s, start, all) {
      ParentAncestor(s, start, all);
    }
  }

  lemma UpstreamPop(start: Step, d: Plan, stack: seq<Step>, all: Plan)
    requires |stack| > 0 && Upstream(start, d, stack, all)
    ensures Upstream(start, d, stack[..|stack| - 1], all) && Ancestor(stack[|stack| - 1], start, all)
  {
    assert stack[|stack| - 1] in stack;
    forall s | s in stack[..|stack| - 1] ensures s in stack { }
  }

  lemma UpstreamMember(start: Step, d: Plan, stack: seq<Step>, node: Step, all: Plan)
    requires Upstream(start, d, stack, all) && Ancestor(node, start, all) && GetParents(node, all).Ok?
    ensures Upstream(start, d + [(node.ref, node)], stack + GetParents(node, all).value, all)
  {
    var d2 := d + [(node.ref, node)];
    forall i | 1 <= i < |d2| ensures Ancestor(d2[i].1, start, all) {
      if i < |d| { assert d2[i] == d[i]; }
    }
    forall s | s in stack + GetParents(node, all).value ensures Ancestor(s, start, all) {
      if s !in stack {
        ParentAncestor(s, node, all);
        AncestorTrans(s, node, start, all);
      }
    }
  }

  /** The roots of the calls still running stay below the step a nested call starts from. */
  lemma ActiveBelow(node: Step, start: Step, active: set<Step>, all: Plan)
    requires Ancestor(node, start, all) && forall a :: a in active ==> Ancestor(start, a, all)
    ensures forall a :: a in active + {start} ==> Ancestor(node, a, all)
  {
    forall a | a in active ensures Ancestor(node, a, all) {
      AncestorTrans(node, start, a, all);
    }
  }

  /** Reaching the root of a running call again closes a cycle through that return step. */
  lemma ActiveCycle(node: Step, start: Step, all: Plan)
    requires ReturnStep(node) && Ancestor(node, start, all) && Ancestor(start, node, all)
    ensures ReturnCycle(start, all)
  {
    AncestorTrans(node, start, node, all);
  }

  // ---------------------------------------------------------------------------
  // split_on_returns
  // ---------------------------------------------------------------------------

  const NoReturn := "Error: plan does not end with return operation!"

  function RefsOf(s: set<Step>): set<string>
  {
    set x | x in s :: x.ref
  }

  /** The subplan grown so far: the start first, then non-return steps each reached from an earlier one. */
  ghost predicate Grown(start: Step, all: Plan, d: Plan)
  {
    |d| > 0 && d[0] == (start.ref, start) && WellKeyed(d) && Members(d, all)
    && (forall i :: 1 <= i < |d| ==> !ReturnStep(d[i].1))
    && Rooted(d, all)
  }

  /** Every step on the stack is a step of the plan and a parent of a step of the subplan. */
  ghost predicate OnStack(stack: seq<Step>, d: Plan, all: Plan)
  {
    forall s :: s in stack ==> s in StepSet(all) && ParentIn(s, d, all)
  }

  /** No parent of a subplan step is neither explored nor waiting on the stack. */
  ghost predicate Frontier(d: Plan, stack: seq<Step>, explored: set<string>, all: Plan)
  {
    forall i, p :: 0 <= i < |d| && ParentOf(p, d[i].1, all) ==> p.ref in explored || p in stack
  }

  /** The return steps split off so far each have their subplan in `out`. */
  ghost predicate SpawnedOk(spawned: set<Step>, out: Dict<Plan>, lo: nat, all: Plan)
  {
    forall s :: s in spawned ==> s in StepSet(all) && ReturnStep(s) && Spawned(out, lo, s)
  }

  /**
   * `split_on_returns`: starting from a return step, walk its ancestors
   * depth first (the stack pops from its end); a non-return ancestor joins
   * this subplan and its parents are pushed, a return ancestor is split off
   * first by a nested call, and every reference is visited once. The
   * subplan is then stored under the next alias. A start that is not a
   * return step raises Exception; a parent reference that is not a key
   * raises KeyError; a return step reached again while its own call is
   * still running recurses without end, which is RecursionError here
   * (`active` holds the roots of the calls still running).
   */
  method SplitOnReturns(start: Step, all: Plan, sub: Dict<Plan>, aliasIdx: nat, active: set<Step>)
    returns (r: Result<(Dict<Plan>, nat)>)
    requires start in StepSet(all) && start !in active
    requires forall a :: a in active ==> Ancestor(start, a, all)
    requires AliasKeyed(sub) && aliasIdx == |sub|
    ensures r.Ok? ==> r.value.1 == |r.value.0| && Extends(r.value.0, sub, start, all)
    ensures !IsReturn(start.operation) ==> r == Err(Exception(NoReturn))
    ensures r.Err? ==>
      (r.error == RecursionError || (r.error.KeyError? && !HasKey(all, r.error.key))
       || (r.error == Exception(NoReturn) && !IsReturn(start.operation)))
    ensures r == Err(RecursionError) ==> ReturnCycle(start, all)
    ensures r.Err? && r.error.KeyError? ==> !ParentsPresent(all)
    ensures IsReturn(start.operation) && ParentsPresent(all) && Acyclic(all) ==> r.Ok?
    decreases |StepSet(all) - active|
  {
    ReturnIsReturn(start.operation);
    if !IsReturn(start.operation) {
      return Err(Exception(NoReturn));
    }
    var d: Plan := [(start.ref, start)];
    var parents := GetParents(start, all);
    if parents.Err? {
      GetParentsMissing(start, all);
      return Err(parents.error);
    }
    UpstreamBegins(start, all);
    var stack := parents.value;
    var explored: set<string> := {start.ref};
    ghost var spawned: set<Step> := {};
    var out, idx := sub, aliasIdx;
    WalkBegins(start, all, sub);
    while stack != []
      invariant WalkInv(start, all, sub, d, stack, explored, spawned, out) && idx == |out|
      invariant Upstream(start, d, stack, all)
      invariant start.ref in explored
      decreases |RefsOf(StepSet(all)) - explored|, |stack|
    {
      ghost var before := stack;
      var node := stack[|stack| - 1];
      stack := stack[..|stack| - 1];
      Popped(start, all, sub, d, before, explored, spawned, out);
      UpstreamPop(start, d, before, all);
      if node.ref !in explored {
        FewerLeft(RefsOf(StepSet(all)), explored, node.ref);
        ReturnIsReturn(node.operation);
        if IsReturn(node.operation) {
          if node in active {
            ActiveCycle(node, start, all);
            CycleNotAcyclic(start, all);
            return Err(RecursionError);
          }
          FewerLeft(StepSet(all), active, start);
          ActiveBelow(node, start, active, all);
          var rr := SplitOnReturns(node, all, out, idx, active + {start});
          if rr.Err? {
            if rr.error == RecursionError {
              CycleBelow(node, start, all);
              CycleNotAcyclic(start, all);
            }
            return Err(rr.error);
          }
          PopReturn(start, all, sub, d, stack, node, explored, spawned, out, rr.value.0);
          out, idx := rr.value.0, rr.value.1;
          spawned := spawned + {node};
        } else {
          var ps := GetParents(node, all);
          if ps.Err? {
            GetParentsMissing(node, all);
            return Err(ps.error);
          }
          PopMember(start, all, sub, d, stack, node, explored, spawned, out);
          UpstreamMember(start, d, stack, node, all);
          d := Put(d, node.ref, node);
          stack := stack + ps.value;
        }
        explored := explored + {node.ref};
      } else {
        PopSeen(start, all, sub, d, stack, node, explored, spawned, out);
      }
    }
    WalkEnds(start, all, sub, d, explored, spawned, out);
    out := Put(out, AliasName(idx), d);
    return Ok((out, idx + 1));
  }

  /**
   * `out` is `sub` followed by valid alias-keyed subplans, the last of them
   * the one rooted at `start`.
   */
  ghost predicate Extends(out: Dict<Plan>, sub: Dict<Plan>, start: Step, all: Plan)
  {
    |sub| < |out| && AliasKeyed(out) && out[..|sub|] == sub && BlockOk(out, |sub|, all)
    && |out[|out| - 1].1| > 0 && out[|out| - 1].1[0] == (start.ref, start)
  }

  /** Everything the walk keeps true, in one place. */
  ghost predicate WalkInv(start: Step, all: Plan, sub: Dict<Plan>, d: Plan, stack: seq<Step>,
                          explored: set<string>, spawned: set<Step>, out: Dict<Plan>)
  {
    Grown(start, all, d) && OnStack(stack, d, all) && Frontier(d, stack, explored, all)
    && explored == KeySet(d) + RefsOf(spawned) && SpawnedOk(spawned, out, |sub|, all)
    && AliasKeyed(out) && |sub| <= |out| && out[..|sub|] == sub && BlockOk(out, |sub|, all)
    && explored <= RefsOf(StepSet(all)) && start.ref in explored
  }

  lemma WalkBegins(start: Step, all: Plan, sub: Dict<Plan>)
    requires start in StepSet(all) && GetParents(start, all).Ok? && ReturnStep(start) && AliasKeyed(sub)
    ensures WalkInv(start, all, sub, [(start.ref, start)], GetParents(start, all).value, {start.ref}, {}, sub)
  {
    GetParentsFound(start, all);
    var d := [(start.ref, start)];
    forall s | s in GetParents(start, all).value
      ensures s in StepSet(all) && ParentIn(s, d, all)
    {
      assert ParentOf(s, d[0].1, all);
    }
    assert sub[..|sub|] == sub;
    assert RefsOf({}) == {};
    assert KeySet(d) == {start.ref} by {
      assert d[0].0 in KeySet(d);
    }
    assert start.ref in RefsOf(StepSet(all));
  }

  /** The popped step is a step of the plan; the stack without it is what is left. */
  lemma Popped(start: Step, all: Plan, sub: Dict<Plan>, d: Plan, before: seq<Step>,
               explored: set<string>, spawned: set<Step>, out: Dict<Plan>)
    requires |before| > 0 && WalkInv(start, all, sub, d, before, explored, spawned, out)
    ensures WalkInv(start, all, sub, d, before[..|before| - 1] + [before[|before| - 1]], explored, spawned, out)
    ensures before[|before| - 1] in StepSet(all) && before[|before| - 1].ref in RefsOf(StepSet(all))
  {
    LastSplit(before);
    assert before[|before| - 1] in before;
  }

  lemma LastSplit<T>(s: seq<T>)
    requires |s| > 0
    ensures s == s[..|s| - 1] + [s[|s| - 1]]
  {
  }

  /** Popping a step whose reference was explored before changes nothing else. */
  lemma PopSeen(start: Step, all: Plan, sub: Dict<Plan>, d: Plan, stack: seq<Step>, node: Step,
                explored: set<string>, spawned: set<Step>, out: Dict<Plan>)
    requires WalkInv(start, all, sub, d, stack + [node], explored, spawned, out)
    requires node.ref in explored
    ensures WalkInv(start, all, sub, d, stack, explored, spawned, out)
  {
    StackShrinks(d, stack, node, explored, all);
  }

  lemma StackShrinks(d: Plan, stack: seq<Step>, node: Step, explored: set<string>, all: Plan)
    requires OnStack(stack + [node], d, all) && Frontier(d, stack + [node], explored, all)
    ensures OnStack(stack, d, all) && Frontier(d, stack, explored + {node.ref}, all)
  {
    forall s | s in stack ensures s in stack + [node] { }
    forall i, p | 0 <= i < |d| && ParentOf(p, d[i].1, all) ensures p.ref in explored + {node.ref} || p in stack {
      assert p.ref in explored || p in stack + [node];
    }
  }

  /** A return step split off by the nested call: its reference is explored and its subplan stored. */
  lemma PopReturn(start: Step, all: Plan, sub: Dict<Plan>, d: Plan, stack: seq<Step>, node: Step,
                  explored: set<string>, spawned: set<Step>, out: Dict<Plan>, out2: Dict<Plan>)
    requires WalkInv(start, all, sub, d, stack + [node], explored, spawned, out)
    requires node in StepSet(all) && ReturnStep(node) && node.ref in RefsOf(StepSet(all))
    requires Extends(out2, out, node, all)
    ensures WalkInv(start, all, sub, d, stack, explored + {node.ref}, spawned + {node}, out2)
  {
    SplitOff(spawned, node, out, out2, |sub|, all);
    StackShrinks(d, stack, node, explored, all);
    RefsAdd(spawned, node);
  }

  lemma RefsAdd(s: set<Step>, x: Step)
    ensures RefsOf(s + {x}) == RefsOf(s) + {x.ref}
  {
    assert x in s + {x};
  }

  lemma KeySetAppend(d: Plan, k: string, v: Step)
    ensures KeySet(d + [(k, v)]) == KeySet(d) + {k}
  {
    var d2 := d + [(k, v)];
    forall x | x in KeySet(d2) ensures x in KeySet(d) + {k} {
      var i :| 0 <= i < |d2| && d2[i].0 == x;
      if i < |d| { assert d[i] == d2[i]; }
    }
    forall x | x in KeySet(d) ensures x in KeySet(d2) {
      var i :| 0 <= i < |d| && d[i].0 == x;
      assert d2[i] == d[i];
    }
    assert d2[|d|].0 == k;
  }

  lemma FewerLeft<T>(u: set<T>, e: set<T>, x: T)
    requires x in u && x !in e
    ensures |u - (e + {x})| < |u - e|
  {
    var a := u - e;
    assert u - (e + {x}) == a - {x};
    assert a == (a - {x}) + {x};
  }

  /** A return step split off by the nested call now has its subplan. */
  lemma SplitOff(spawned: set<Step>, node: Step, out: Dict<Plan>, out2: Dict<Plan>, lo: nat, all: Plan)
    requires SpawnedOk(spawned, out, lo, all) && BlockOk(out, lo, all)
    requires node in StepSet(all) && ReturnStep(node)
    requires |out| < |out2| && out2[..|out|] == out && BlockOk(out2, |out|, all)
    requires |out2[|out2| - 1].1| > 0 && out2[|out2| - 1].1[0] == (node.ref, node)
    ensures SpawnedOk(spawned + {node}, out2, lo, all) && BlockOk(out2, lo, all)
    ensures out2[..lo] == out[..lo]
  {
    BlockJoin(out, out2, lo, all);
    forall s | s in spawned + {node} ensures Spawned(out2, lo, s) {
      if s == node {
        assert Spawned(out2, |out|, s);
        SpawnedGrow(out2, out2, lo, |out|, s);
      } else {
        SpawnedGrow(out, out2, lo, lo, s);
      }
    }
    assert out2[..lo] == out2[..|out|][..lo];
  }

  /** A non-return step joins the subplan, and its parents go on the stack. */
  lemma PopMember(start: Step, all: Plan, sub: Dict<Plan>, d: Plan, stack: seq<Step>, node: Step,
                  explored: set<string>, spawned: set<Step>, out: Dict<Plan>)
    requires WalkInv(start, all, sub, d, stack + [node], explored, spawned, out)
    requires node.ref !in explored && node.ref in RefsOf(StepSet(all))
    requires !ReturnStep(node) && GetParents(node, all).Ok?
    ensures Put(d, node.ref, node) == d + [(node.ref, node)]
    ensures WalkInv(start, all, sub, d + [(node.ref, node)], stack + GetParents(node, all).value,
                    explored + {node.ref}, spawned, out)
  {
    MemberJoins(start, all, d, stack, node, explored, spawned);
  }

  lemma MemberJoins(start: Step, all: Plan, d: Plan, stack: seq<Step>, node: Step, explored: set<string>,
                  spawned: set<Step>)
    requires Grown(start, all, d) && OnStack(stack + [node], d, all) && Frontier(d, stack + [node], explored, all)
    requires explored == KeySet(d) + RefsOf(spawned) && node.ref !in explored
    requires !ReturnStep(node) && GetParents(node, all).Ok?
    ensures Put(d, node.ref, node) == d + [(node.ref, node)]
    ensures Grown(start, all, d + [(node.ref, node)])
    ensures OnStack(stack + GetParents(node, all).value, d + [(node.ref, node)], all)
    ensures Frontier(d + [(node.ref, node)], stack + GetParents(node, all).value, explored + {node.ref}, all)
    ensures explored + {node.ref} == KeySet(d + [(node.ref, node)]) + RefsOf(spawned)
  {
    assert !HasKey(d, node.ref) by {
      forall i | 0 <= i < |d| ensures d[i].0 != node.ref {
        assert d[i].0 in KeySet(d);
      }
    }
    var d2 := d + [(node.ref, node)];
    var ps := GetParents(node, all).value;
    GetParentsFound(node, all);
    assert node in stack + [node];
    GrownMember(start, all, d, node);
    StackGrows(d, stack, node, all);
    FrontierGrows(d, stack, node, explored, all);
    KeySetAppend(d, node.ref, node);
  }

  lemma StackGrows(d: Plan, stack: seq<Step>, node: Step, all: Plan)
    requires OnStack(stack + [node], d, all) && GetParents(node, all).Ok?
    ensures OnStack(stack + GetParents(node, all).value, d + [(node.ref, node)], all)
  {
    var d2 := d + [(node.ref, node)];
    var ps := GetParents(node, all).value;
    GetParentsFound(node, all);
    forall s | s in stack + ps
      ensures s in StepSet(all) && ParentIn(s, d2, all)
    {
      if s in ps {
        assert ParentOf(s, d2[|d|].1, all);
      } else {
        assert s in stack + [node];
        var j :| 0 <= j < |d| && ParentOf(s, d[j].1, all);
        assert d2[j] == d[j];
      }
    }
  }

  lemma FrontierGrows(d: Plan, stack: seq<Step>, node: Step, explored: set<string>, all: Plan)
    requires Frontier(d, stack + [node], explored, all) && GetParents(node, all).Ok?
    ensures Frontier(d + [(node.ref, node)], stack + GetParents(node, all).value, explored + {node.ref}, all)
  {
    var d2 := d + [(node.ref, node)];
    var ps := GetParents(node, all).value;
    forall i, p | 0 <= i < |d2| && ParentOf(p, d2[i].1, all)
      ensures p.ref in explored + {node.ref} || p in stack + ps
    {
      if i < |d| {
        assert d2[i] == d[i];
        assert p.ref in explored || p in stack + [node];
      } else {
        assert p in ps;
      }
    }
  }

  lemma GrownMember(start: Step, all: Plan, d: Plan, node: Step)
    requires Grown(start, all, d) && !HasKey(d, node.ref)
    requires !ReturnStep(node) && GetParents(node, all).Ok? && node in StepSet(all)
    requires ParentIn(node, d, all)
    ensures Grown(start, all, d + [(node.ref, node)])
  {
    KeyedAppend(d, node);
    MembersAppend(d, all, node);
    RootedAppend(d, all, node);
    assert (d + [(node.ref, node)])[0] == d[0];
  }

  lemma KeyedAppend(d: Plan, node: Step)
    requires WellKeyed(d) && !HasKey(d, node.ref)
    ensures WellKeyed(d + [(node.ref, node)])
  {
    var d2 := d + [(node.ref, node)];
    forall a, b | 0 <= a < b < |d2| ensures d2[a].0 != d2[b].0 {
      if b == |d| {
        assert d2[a].0 == d[a].0;
      }
    }
  }

  /** Each step of the subplan is a step of the plan whose parents can be fetched. */
  ghost predicate Members(d: Plan, all: Plan)
  {
    forall i :: 0 <= i < |d| ==> d[i].1 in StepSet(all) && GetParents(d[i].1, all).Ok?
  }

  lemma MembersAppend(d: Plan, all: Plan, node: Step)
    requires Members(d, all) && GetParents(node, all).Ok? && node in StepSet(all)
    ensures Members(d + [(node.ref, node)], all)
  {
    var d2 := d + [(node.ref, node)];
    forall i | 0 <= i < |d2| ensures d2[i].1 in StepSet(all) && GetParents(d2[i].1, all).Ok? {
      if i < |d| { assert d2[i] == d[i]; }
    }
  }

  lemma RootedAppend(d: Plan, all: Plan, node: Step)
    requires Rooted(d, all) && ParentIn(node, d, all)
    ensures Rooted(d + [(node.ref, node)], all)
  {
    var d2 := d + [(node.ref, node)];
    forall i | 1 <= i < |d2| ensures ReachedAt(d2, i, all) {
      if i < |d| {
        assert ReachedAt(d, i, all);
        var j :| 0 <= j < i && ParentOf(d[i].1, d[j].1, all);
        assert d2[i] == d[i] && d2[j] == d[j];
      } else {
        var j :| 0 <= j < |d| && ParentOf(node, d[j].1, all);
        assert d2[j] == d[j] && d2[i] == (node.ref, node);
      }
    }
  }

  /** With the stack empty the subplan is complete, and it is stored under the next alias. */
  lemma WalkEnds(start: Step, all: Plan, sub: Dict<Plan>, d: Plan, explored: set<string>, spawned: set<Step>,
                 out: Dict<Plan>)
    requires WalkInv(start, all, sub, d, [], explored, spawned, out) && ReturnStep(start)
    ensures Put(out, AliasName(|out|), d) == out + [(AliasName(|out|), d)]
    ensures Extends(out + [(AliasName(|out|), d)], sub, start, all)
  {
    SubplanDone(start, all, d, explored, spawned, out, |sub|);
    NextAliasFresh(out, d);
    StoreSubplan(out, d, |sub|, all);
    PrefixGrows(out, (AliasName(|out|), d), sub);
  }

  lemma PrefixGrows<T>(out: seq<T>, x: T, sub: seq<T>)
    requires |sub| <= |out| && out[..|sub|] == sub
    ensures (out + [x])[..|sub|] == sub
  {
    assert (out + [x])[..|sub|] == out[..|sub|];
  }

  /** A complete subplan stored after valid ones leaves them all valid. */
  lemma StoreSubplan(out: Dict<Plan>, d: Plan, lo: nat, all: Plan)
    requires BlockOk(out, lo, all) && ValidSubplan(d, all)
    requires WellKeyed(all) ==> ReturnsSpawned(d, out, lo, all)
    ensures BlockOk(out + [(AliasName(|out|), d)], lo, all)
  {
    var out2 := out + [(AliasName(|out|), d)];
    assert out2[..|out|] == out;
    forall k | lo <= k < |out2| ensures EntryOk(out2, k, lo, all) {
      if k < |out| {
        assert EntryOk(out, k, lo, all);
        EntryGrows(out, out2, k, lo, all);
      } else {
        NewEntry(out, out2, d, lo, all);
      }
    }
  }

  lemma NewEntry(out: Dict<Plan>, out2: Dict<Plan>, d: Plan, lo: nat, all: Plan)
    requires lo <= |out| && ValidSubplan(d, all) && out2 == out + [(AliasName(|out|), d)]
    requires WellKeyed(all) ==> ReturnsSpawned(d, out, lo, all)
    ensures EntryOk(out2, |out|, lo, all)
  {
    assert out2[..|out|] == out;
    if WellKeyed(all) {
      forall i, p | 0 <= i < |d| && ParentOf(p, d[i].1, all) && ReturnStep(p) && p != d[0].1
        ensures Spawned(out2, lo, p)
      {
        SpawnedGrow(out, out2, lo, lo, p);
      }
    }
  }

  /** An entry stays valid when more subplans are stored after it. */
  lemma EntryGrows(out: Dict<Plan>, out2: Dict<Plan>, k: int, lo: nat, all: Plan)
    requires EntryOk(out, k, lo, all) && |out| <= |out2| && out2[..|out|] == out
    ensures EntryOk(out2, k, lo, all)
  {
    assert out2[k] == out2[..|out|][k];
    if WellKeyed(all) {
      forall i, p | 0 <= i < |out[k].1| && ParentOf(p, out[k].1[i].1, all) && ReturnStep(p) && p != out[k].1[0].1
        ensures Spawned(out2, lo, p)
      {
        SpawnedGrow(out, out2, lo, lo, p);
      }
    }
  }

  lemma SubplanDone(start: Step, all: Plan, d: Plan, explored: set<string>, spawned: set<Step>,
                    out: Dict<Plan>, lo: nat)
    requires Grown(start, all, d) && ReturnStep(start) && Frontier(d, [], explored, all)
    requires explored == KeySet(d) + RefsOf(spawned) && SpawnedOk(spawned, out, lo, all)
    ensures ValidSubplan(d, all)
    ensures WellKeyed(all) ==> ReturnsSpawned(d, out, lo, all)
  {
    if WellKeyed(all) {
      EndsClosed(all, d, explored, spawned, out, lo);
      EndsSpawned(all, d, explored, spawned, out, lo);
    }
  }

  /** In a well-keyed plan two steps with one reference are one step. */
  lemma SameRef(all: Plan, a: Step, b: Step)
    requires WellKeyed(all) && a in StepSet(all) && b in StepSet(all) && a.ref == b.ref
    ensures a == b
  {
    WellKeyedUniqueRefs(all);
    var i :| 0 <= i < |all| && all[i].1 == a;
    var j :| 0 <= j < |all| && all[j].1 == b;
  }

  /** An explored reference that is not a key of the subplan names a split-off return step. */
  lemma ExploredOutside(all: Plan, d: Plan, explored: set<string>, spawned: set<Step>, out: Dict<Plan>,
                        lo: nat, p: Step)
    requires WellKeyed(all) && p in StepSet(all) && p.ref in explored && !HasKey(d, p.ref)
    requires explored == KeySet(d) + RefsOf(spawned) && SpawnedOk(spawned, out, lo, all)
    ensures ReturnStep(p) && Spawned(out, lo, p)
  {
    assert p.ref !in KeySet(d);
    var s :| s in spawned && s.ref == p.ref;
    SameRef(all, s, p);
  }

  lemma EndsClosed(all: Plan, d: Plan, explored: set<string>, spawned: set<Step>,
                   out: Dict<Plan>, lo: nat)
    requires WellKeyed(all) && Frontier(d, [], explored, all)
    requires explored == KeySet(d) + RefsOf(spawned) && SpawnedOk(spawned, out, lo, all)
    ensures Closed(d, all)
  {
    forall i, p | 0 <= i < |d| && ParentOf(p, d[i].1, all) ensures HasKey(d, p.ref) || ReturnStep(p) {
      GetParentsFound(d[i].1, all);
      if !HasKey(d, p.ref) {
        ExploredOutside(all, d, explored, spawned, out, lo, p);
      }
    }
  }

  lemma EndsSpawned(all: Plan, d: Plan, explored: set<string>, spawned: set<Step>,
                    out: Dict<Plan>, lo: nat)
    requires WellKeyed(all) && |d| > 0 && WellKeyed(d) && Members(d, all)
    requires forall i :: 1 <= i < |d| ==> !ReturnStep(d[i].1)
    requires Frontier(d, [], explored, all)
    requires explored == KeySet(d) + RefsOf(spawned) && SpawnedOk(spawned, out, lo, all)
    ensures ReturnsSpawned(d, out, lo, all)
  {
    forall i, p | 0 <= i < |d| && ParentOf(p, d[i].1, all) && ReturnStep(p) && p != d[0].1
      ensures Spawned(out, lo, p)
    {
      ParentSpawned(all, d, explored, spawned, out, lo, i, p);
    }
  }

  /** One return parent of step `i` of a finished subplan was split off. */
  lemma ParentSpawned(all: Plan, d: Plan, explored: set<string>, spawned: set<Step>,
                      out: Dict<Plan>, lo: nat, i: nat, p: Step)
    requires WellKeyed(all) && |d| > 0 && WellKeyed(d) && Members(d, all)
    requires forall i :: 1 <= i < |d| ==> !ReturnStep(d[i].1)
    requires Frontier(d, [], explored, all)
    requires explored == KeySet(d) + RefsOf(spawned) && SpawnedOk(spawned, out, lo, all)
    requires i < |d| && ParentOf(p, d[i].1, all) && ReturnStep(p) && p != d[0].1
    ensures Spawned(out, lo, p)
  {
    GetParentsFound(d[i].1, all);
    FrontierExplored(d, explored, all, i, p);
    ReturnOutside(all, d, p);
    ExploredOutside(all, d, explored, spawned, out, lo, p);
  }

  /** Once the stack is empty, every parent of the subplan has been explored. */
  lemma FrontierExplored(d: Plan, explored: set<string>, all: Plan, i: nat, p: Step)
    requires Frontier(d, [], explored, all) && i < |d| && ParentOf(p, d[i].1, all)
    ensures p.ref in explored
  {
    assert p.ref in explored || p in [];
  }

  /** A return step other than the root is not a key of the subplan. */
  lemma ReturnOutside(all: Plan, d: Plan, p: Step)
    requires WellKeyed(all) && |d| > 0 && WellKeyed(d) && Members(d, all)
    requires forall i :: 1 <= i < |d| ==> !ReturnStep(d[i].1)
    requires p in StepSet(all) && ReturnStep(p) && p != d[0].1
    ensures !HasKey(d, p.ref)
  {
    WellKeyedUniqueRefs(all);
  }
}
