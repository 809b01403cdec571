/**
 * `core/Document/Blueprints/SQRPlanFiller.py`: finding the slots of a plan
 * template, filling them from a dictionary of fillers, and generating the
 * distinct filled plans for a list of such dictionaries.
 *
 * Plans and filler dictionaries are Python dictionaries, so their keys are
 * distinct; the members that look steps up by key ask for that.
 */
module SqrPlanFiller {

  import opened Wrappers
  import opened Dicts
  import opened Steps
  import opened TemplateSlots
  import opened PlanSubplans

  // ---------------------------------------------------------------------------
  // Finding the slots
  // ---------------------------------------------------------------------------

  /** A slot location: the key of its step and the argument index, -1 for the operation. */
  datatype Location = Location(stepKey: string, argIdx: int)

  /** A slot key with one place where it occurs. */
  type Occurrence = (string, Location)

  /** The slot dictionary: each slot key with its locations. */
  type SlotInfo = Dict<seq<Location>>

  /** The text at argument index `j` of a step, its operation for -1. */
  function TextAt(step: Step, j: int): string
    requires -1 <= j < |step.args|
  {
    if j == -1 then step.operation else step.args[j]
  }

  /** The slot a text holds, keyed by the text with its outer braces stripped. */
  function SlotAt(text: string, loc: Location): seq<Occurrence>
  {
    if IsSlot(text) then [(StripBraces(text), loc)] else []
  }

  /** The slots among the first `n` arguments of the step under `k`, in index order. */
  function ArgOccurrences(k: string, args: seq<string>, n: nat): seq<Occurrence>
    requires n <= |args|
  {
    if n == 0 then [] else ArgOccurrences(k, args, n - 1) + SlotAt(args[n - 1], Location(k, n - 1))
  }

  /** The slots of the step under `k`: the operation first, then the arguments. */
  function StepOccurrences(k: string, step: Step): seq<Occurrence>
  {
    SlotAt(step.operation, Location(k, -1)) + ArgOccurrences(k, step.args, |step.args|)
  }

  /** The slots of a plan template, step by step in plan order. */
  function Occurrences(plan: Plan): seq<Occurrence>
  {
    if plan == [] then []
    else Occurrences(plan[..|plan| - 1]) + StepOccurrences(plan[|plan| - 1].0, plan[|plan| - 1].1)
  }

  /** The slot dictionary of a list of occurrences: a new key is added, a known key's list extended. */
  function Group(occ: seq<Occurrence>): SlotInfo
  {
    if occ == [] then []
    else Extend(Group(occ[..|occ| - 1]), occ[|occ| - 1].0, [occ[|occ| - 1].1])
  }

  /** `identify_slots_in_plan_template(plan_template)`. */
  function SlotsOf(plan: Plan): SlotInfo
  {
    Group(Occurrences(plan))
  }

  /** The locations of the occurrences of slot `s`, in order. */
  function LocationsOf(occ: seq<Occurrence>, s: string): seq<Location>
  {
    if occ == [] then []
    else LocationsOf(occ[..|occ| - 1], s) + (if occ[|occ| - 1].0 == s then [occ[|occ| - 1].1] else [])
  }

  /** Slot `s` is at `loc`: the step under its key has the text there, and the text is a slot keyed `s`. */
  predicate SlotOccursAt(plan: Plan, s: string, loc: Location)
  {
    exists i :: 0 <= i < |plan| && plan[i].0 == loc.stepKey && -1 <= loc.argIdx < |plan[i].1.args|
      && IsSlot(TextAt(plan[i].1, loc.argIdx)) && StripBraces(TextAt(plan[i].1, loc.argIdx)) == s
  }

  /** `x` comes before `y` in the scan: an earlier step, or the same step and a smaller argument index. */
  predicate Before(plan: Plan, x: Location, y: Location)
  {
    exists i, j :: 0 <= i <= j < |plan| && plan[i].0 == x.stepKey && plan[j].0 == y.stepKey
      && (i < j || x.argIdx < y.argIdx)
  }

  /** The dictionary looks up, under each key, exactly the locations of that key, in order. */
  lemma {:induction false} GroupGet(occ: seq<Occurrence>, s: string)
    ensures Get(Group(occ), s) == if LocationsOf(occ, s) == [] then None else Some(LocationsOf(occ, s))
  {
    if occ != [] {
      var front, last := occ[..|occ| - 1], occ[|occ| - 1];
      GroupGet(front, s);
      ExtendGet(Group(front), last.0, [last.1], s);
      assert Group(occ) == Extend(Group(front), last.0, [last.1]);
      if last.0 == s {
        assert LocationsOf(occ, s) == LocationsOf(front, s) + [last.1];
        assert Get(Group(front), s).GetOr([]) == LocationsOf(front, s);
      } else {
        assert LocationsOf(occ, s) == LocationsOf(front, s) + [];
        assert LocationsOf(front, s) + [] == LocationsOf(front, s);
      }
    }
  }

  /** The slot dictionary holds every key once. */
  lemma {:induction false} GroupDistinct(occ: seq<Occurrence>)
    ensures DistinctKeys(Group(occ))
  {
    if occ != [] {
      var front, last := occ[..|occ| - 1], occ[|occ| - 1];
      GroupDistinct(front);
      PutDistinct(Group(front), last.0, Get(Group(front), last.0).GetOr([]) + [last.1]);
    }
  }

  lemma {:induction false} LocationsOfMember(occ: seq<Occurrence>, s: string, loc: Location)
    ensures loc in LocationsOf(occ, s) <==> (s, loc) in occ
  {
    if occ != [] {
      var front := occ[..|occ| - 1];
      LocationsOfMember(front, s, loc);
      assert occ == front + [occ[|occ| - 1]];
    }
  }

  lemma {:induction false} ArgOccurrencesMember(k: string, args: seq<string>, n: nat, s: string, loc: Location)
    requires n <= |args|
    ensures (s, loc) in ArgOccurrences(k, args, n) <==>
      (loc.stepKey == k && 0 <= loc.argIdx < n && IsSlot(args[loc.argIdx]) && StripBraces(args[loc.argIdx]) == s)
  {
    if n > 0 {
      ArgOccurrencesMember(k, args, n - 1, s, loc);
      var front, last := ArgOccurrences(k, args, n - 1), SlotAt(args[n - 1], Location(k, n - 1));
      assert ArgOccurrences(k, args, n) == front + last;
      assert (s, loc) in front + last <==> (s, loc) in front || (s, loc) in last;
    }
  }

  lemma StepOccurrencesMember(k: string, step: Step, s: string, loc: Location)
    ensures (s, loc) in StepOccurrences(k, step) <==> SlotOfStepAt(k, step, s, loc)
  {
    ArgOccurrencesMember(k, step.args, |step.args|, s, loc);
  }

  /** The text of the step under `k` at `loc` is a slot keyed `s`. */
  predicate SlotOfStepAt(k: string, step: Step, s: string, loc: Location)
  {
    loc.stepKey == k && -1 <= loc.argIdx < |step.args|
      && IsSlot(TextAt(step, loc.argIdx)) && StripBraces(TextAt(step, loc.argIdx)) == s
  }

  /** A slot of a plan is a slot of its front or of its last step. */
  lemma SlotOccursAtSnoc(plan: Plan, s: string, loc: Location)
    requires plan != []
    ensures SlotOccursAt(plan, s, loc) <==>
      (SlotOccursAt(plan[..|plan| - 1], s, loc) || SlotOfStepAt(plan[|plan| - 1].0, plan[|plan| - 1].1, s, loc))
  {
    var front, n := plan[..|plan| - 1], |plan| - 1;
    if SlotOccursAt(front, s, loc) {
      var i :| 0 <= i < |front| && front[i].0 == loc.stepKey && -1 <= loc.argIdx < |front[i].1.args|
        && IsSlot(TextAt(front[i].1, loc.argIdx)) && StripBraces(TextAt(front[i].1, loc.argIdx)) == s;
      assert plan[i] == front[i];
    }
    if SlotOccursAt(plan, s, loc) {
      var i :| 0 <= i < |plan| && plan[i].0 == loc.stepKey && -1 <= loc.argIdx < |plan[i].1.args|
        && IsSlot(TextAt(plan[i].1, loc.argIdx)) && StripBraces(TextAt(plan[i].1, loc.argIdx)) == s;
      if i < n {
        assert front[i] == plan[i];
      }
    }
    if SlotOfStepAt(plan[n].0, plan[n].1, s, loc) {
      assert plan[n].0 == loc.stepKey && -1 <= loc.argIdx < |plan[n].1.args|
        && IsSlot(TextAt(plan[n].1, loc.argIdx)) && StripBraces(TextAt(plan[n].1, loc.argIdx)) == s;
    }
  }

  /** Every slot of the template is recorded, and nothing else. */
  lemma {:induction false} OccurrencesMember(plan: Plan, s: string, loc: Location)
    ensures (s, loc) in Occurrences(plan) <==> SlotOccursAt(plan, s, loc)
  {
    if plan != [] {
      var front, n := plan[..|plan| - 1], |plan| - 1;
      var fo, so := Occurrences(front), StepOccurrences(plan[n].0, plan[n].1);
      assert Occurrences(plan) == fo + so;
      assert (s, loc) in fo + so <==> (s, loc) in fo || (s, loc) in so;
      OccurrencesMember(front, s, loc);
      StepOccurrencesMember(plan[n].0, plan[n].1, s, loc);
      SlotOccursAtSnoc(plan, s, loc);
    }
  }

  /** `plan_slot_info[s]`: the locations of slot `s` are exactly the places where the template holds it. */
  lemma SlotsOfGet(plan: Plan, s: string, loc: Location)
    ensures Get(SlotsOf(plan), s).Some? ==> (loc in Get(SlotsOf(plan), s).value <==> SlotOccursAt(plan, s, loc))
    ensures Get(SlotsOf(plan), s).None? <==> forall l :: !SlotOccursAt(plan, s, l)
  {
    GroupGet(Occurrences(plan), s);
    LocationsOfMember(Occurrences(plan), s, loc);
    OccurrencesMember(plan, s, loc);
    if Get(SlotsOf(plan), s).Some? {
      assert SlotOccursAt(plan, s, LocationsOf(Occurrences(plan), s)[0]) by {
        LocationsOfMember(Occurrences(plan), s, LocationsOf(Occurrences(plan), s)[0]);
        OccurrencesMember(plan, s, LocationsOf(Occurrences(plan), s)[0]);
      }
    } else {
      forall l ensures !SlotOccursAt(plan, s, l) {
        LocationsOfMember(Occurrences(plan), s, l);
        OccurrencesMember(plan, s, l);
      }
    }
  }

  lemma {:induction false} ArgOccurrencesOrdered(k: string, args: seq<string>, n: nat)
    requires n <= |args|
    ensures forall a, b :: 0 <= a < b < |ArgOccurrences(k, args, n)| ==>
      ArgOccurrences(k, args, n)[a].1.argIdx < ArgOccurrences(k, args, n)[b].1.argIdx
    ensures forall a :: 0 <= a < |ArgOccurrences(k, args, n)| ==>
      ArgOccurrences(k, args, n)[a].1.stepKey == k && 0 <= ArgOccurrences(k, args, n)[a].1.argIdx < n
  {
    if n > 0 {
      ArgOccurrencesOrdered(k, args, n - 1);
      var f, t, o := ArgOccurrences(k, args, n - 1), SlotAt(args[n - 1], Location(k, n - 1)), ArgOccurrences(k, args, n);
      assert o == f + t;
      assert forall a :: 0 <= a < |t| ==> t[a].1 == Location(k, n - 1);
      assert forall a :: |f| <= a < |o| ==> o[a] == t[a - |f|];
    }
  }

  lemma StepOccurrencesOrdered(k: string, step: Step)
    ensures forall a, b :: 0 <= a < b < |StepOccurrences(k, step)| ==>
      StepOccurrences(k, step)[a].1.argIdx < StepOccurrences(k, step)[b].1.argIdx
    ensures forall a :: 0 <= a < |StepOccurrences(k, step)| ==> StepOccurrences(k, step)[a].1.stepKey == k
  {
    var op, ao := SlotAt(step.operation, Location(k, -1)), ArgOccurrences(k, step.args, |step.args|);
    var so := StepOccurrences(k, step);
    ArgOccurrencesOrdered(k, step.args, |step.args|);
    assert so == op + ao;
    forall a | 0 <= a < |so| ensures so[a].1.stepKey == k && (a >= |op| ==> so[a] == ao[a - |op|]) {
      if a >= |op| {
        assert so[a] == ao[a - |op|];
      }
    }
  }

  /** Every recorded location names a step of the plan. */
  lemma {:induction false} OccurrencesKeys(plan: Plan)
    ensures forall a :: 0 <= a < |Occurrences(plan)| ==>
      exists i :: 0 <= i < |plan| && plan[i].0 == Occurrences(plan)[a].1.stepKey
  {
    if plan != [] {
      var front, n := plan[..|plan| - 1], |plan| - 1;
      OccurrencesKeys(front);
      StepOccurrencesOrdered(plan[n].0, plan[n].1);
      var occ := Occurrences(plan);
      forall a | 0 <= a < |occ| ensures exists i :: 0 <= i < |plan| && plan[i].0 == occ[a].1.stepKey {
        if a < |Occurrences(front)| {
          assert occ[a] == Occurrences(front)[a];
          var i :| 0 <= i < |front| && front[i].0 == occ[a].1.stepKey;
          assert plan[i] == front[i];
        } else {
          assert occ[a] == StepOccurrences(plan[n].0, plan[n].1)[a - |Occurrences(front)|];
          assert plan[n].0 == occ[a].1.stepKey;
        }
      }
    } else {
      assert Occurrences(plan) == [];
    }
  }

  /**
   * The scan order: slots are recorded step by step in plan order, and
   * within a step the operation first and then the arguments by index.
   */
  lemma {:induction false} OccurrencesOrdered(plan: Plan)
    requires DistinctKeys(plan)
    ensures forall a, b :: 0 <= a < b < |Occurrences(plan)| ==>
      Before(plan, Occurrences(plan)[a].1, Occurrences(plan)[b].1)
  {
    if plan != [] {
      var front, n := plan[..|plan| - 1], |plan| - 1;
      DistinctFront(plan);
      OccurrencesOrdered(front);
      OccurrencesKeys(front);
      StepOccurrencesOrdered(plan[n].0, plan[n].1);
      var occ, fo, so := Occurrences(plan), Occurrences(front), StepOccurrences(plan[n].0, plan[n].1);
      forall a, b | 0 <= a < b < |occ| ensures Before(plan, occ[a].1, occ[b].1) {
        if b < |fo| {
          assert occ[a] == fo[a] && occ[b] == fo[b];
          var i, j :| 0 <= i <= j < |front| && front[i].0 == fo[a].1.stepKey && front[j].0 == fo[b].1.stepKey
            && (i < j || fo[a].1.argIdx < fo[b].1.argIdx);
          assert plan[i] == front[i] && plan[j] == front[j];
        } else if a < |fo| {
          assert occ[a] == fo[a] && occ[b] == so[b - |fo|];
          var i :| 0 <= i < |front| && front[i].0 == fo[a].1.stepKey;
          assert plan[i] == front[i];
        } else {
          assert occ[a] == so[a - |fo|] && occ[b] == so[b - |fo|];
        }
      }
    }
  }

  // ---------------------------------------------------------------------------
  // Filling the slots
  // ---------------------------------------------------------------------------

  /** `loc` names a step of `p` and an index that step has. */
  predicate ValidLoc(p: Plan, loc: Location)
  {
    Get(p, loc.stepKey).Some? && -1 <= loc.argIdx < |Get(p, loc.stepKey).value.args|
  }

  /** Every location the slot dictionary lists is one of `p`. */
  predicate LocsValid(p: Plan, info: SlotInfo)
  {
    forall a, m :: 0 <= a < |info| && 0 <= m < |info[a].1| ==> ValidLoc(p, info[a].1[m])
  }

  /**
   * `plan_to_fill[step_idx].operation = filler` or
   * `plan_to_fill[step_idx].args[arg_idx] = filler`. A location the plan
   * does not have leaves it as it is; the slot dictionary of a template
   * lists none (`SlotsOfValid`).
   */
  function SetAt(p: Plan, loc: Location, filler: string): Plan
  {
    if !ValidLoc(p, loc) then p
    else
      var s := Get(p, loc.stepKey).value;
      Put(p, loc.stepKey, if loc.argIdx == -1 then s.(operation := filler) else s.(args := s.args[loc.argIdx := filler]))
  }

  /** The loop over `plan_slot_info[slot]`: each location, in order, gets the filler. */
  function SetAll(p: Plan, locs: seq<Location>, filler: string): Plan
  {
    if locs == [] then p else SetAt(SetAll(p, locs[..|locs| - 1], filler), locs[|locs| - 1], filler)
  }

  /** The slot dictionary of a template lists only places the template has. */
  lemma SlotsOfValid(plan: Plan)
    requires DistinctKeys(plan)
    ensures LocsValid(plan, SlotsOf(plan)) && DistinctKeys(SlotsOf(plan))
  {
    var info := SlotsOf(plan);
    GroupDistinct(Occurrences(plan));
    forall a, m | 0 <= a < |info| && 0 <= m < |info[a].1| ensures ValidLoc(plan, info[a].1[m]) {
      var loc := info[a].1[m];
      GetAt(info, a);
      SlotsOfGet(plan, info[a].0, loc);
      var i :| 0 <= i < |plan| && plan[i].0 == loc.stepKey && -1 <= loc.argIdx < |plan[i].1.args|;
      GetAt(plan, i);
    }
  }

  /**
   * The loop over `slot_fillers.items()`, after the first `n` items: the
   * filled copy, and whether a slot key of the template had a filler.
   */
  function FillLoop(plan: Plan, fillers: Dict<string>, n: nat): (Plan, bool)
    requires n <= |fillers|
  {
    if n == 0 then (plan, false)
    else
      var (p, any) := FillLoop(plan, fillers, n - 1);
      var (slot, filler) := fillers[n - 1];
      match Get(SlotsOf(plan), slot)
      case None => (p, any)
      case Some(locs) => (SetAll(p, locs, filler), true)
  }

  /**
   * `fill_plan(plan, slot_fillers)`: the filled copy when a slot was
   * filled, the plan itself otherwise.
   */
  function FillOutcome(plan: Plan, fillers: Dict<string>): Plan
  {
    var r := FillLoop(plan, fillers, |fillers|);
    if r.1 then r.0 else plan
  }

  /** Whether a slot key of the template is among the first `n` filler keys. */
  ghost predicate FillsSome(plan: Plan, fillers: Dict<string>, n: nat)
    requires n <= |fillers|
  {
    exists a, l :: 0 <= a < n && SlotOccursAt(plan, fillers[a].0, l)
  }

  /** `filled_any_slot` is set exactly when some filler key is a slot key of the template. */
  lemma {:induction false} FillLoopAny(plan: Plan, fillers: Dict<string>, n: nat)
    requires n <= |fillers|
    ensures FillLoop(plan, fillers, n).1 <==> FillsSome(plan, fillers, n)
  {
    if n > 0 {
      FillLoopAny(plan, fillers, n - 1);
      var slot := fillers[n - 1].0;
      SlotsOfGet(plan, slot, Location("", 0));
      FillsSomeSnoc(plan, fillers, n, slot);
      assert FillLoop(plan, fillers, n).1 == (FillLoop(plan, fillers, n - 1).1 || Get(SlotsOf(plan), slot).Some?);
    }
  }

  lemma FillsSomeSnoc(plan: Plan, fillers: Dict<string>, n: nat, slot: string)
    requires 0 < n <= |fillers| && slot == fillers[n - 1].0
    ensures FillsSome(plan, fillers, n) <==> (FillsSome(plan, fillers, n - 1) || exists l :: SlotOccursAt(plan, slot, l))
  {
    if FillsSome(plan, fillers, n) && !FillsSome(plan, fillers, n - 1) {
      var a, l :| 0 <= a < n && SlotOccursAt(plan, fillers[a].0, l);
      assert a == n - 1;
    }
  }

  // ---------------------------------------------------------------------------
  // The filled plan, place by place
  // ---------------------------------------------------------------------------

  /** A text with its slot filled, when the fillers have a value under its key. */
  function FillText(text: string, fillers: Dict<string>): string
  {
    if IsSlot(text) && Get(fillers, StripBraces(text)).Some? then Get(fillers, StripBraces(text)).value else text
  }

  function FillArgs(args: seq<string>, fillers: Dict<string>): (r: seq<string>)
    ensures |r| == |args| && forall j :: 0 <= j < |args| ==> r[j] == FillText(args[j], fillers)
  {
    if args == [] then [] else FillArgs(args[..|args| - 1], fillers) + [FillText(args[|args| - 1], fillers)]
  }

  /**
   * The plan with every slot filled whose key has a filler: each text of
   * each step, on its own.
   */
  function Filled(plan: Plan, fillers: Dict<string>): (r: Plan)
    ensures |r| == |plan|
    ensures forall i :: 0 <= i < |plan| ==>
      r[i].0 == plan[i].0 && r[i].1.ref == plan[i].1.ref && |r[i].1.args| == |plan[i].1.args|
  {
    if plan == [] then []
    else
      var (k, s) := plan[|plan| - 1];
      Filled(plan[..|plan| - 1], fillers) + [(k, Step(s.ref, FillText(s.operation, fillers), FillArgs(s.args, fillers)))]
  }

  /** Each text of the filled plan is the template's text, filled on its own. */
  lemma {:induction false} FilledAt(plan: Plan, fillers: Dict<string>, i: nat, j: int)
    requires i < |plan| && -1 <= j < |plan[i].1.args|
    ensures TextAt(Filled(plan, fillers)[i].1, j) == FillText(TextAt(plan[i].1, j), fillers)
  {
    if i < |plan| - 1 {
      var front := plan[..|plan| - 1];
      FilledAt(front, fillers, i, j);
      assert Filled(plan, fillers)[i] == Filled(front, fillers)[i] && front[i] == plan[i];
    }
  }

  /** Two plans with the same keys, references and texts are equal. */
  lemma PlanExt(p: Plan, q: Plan)
    requires |p| == |q|
    requires forall i :: 0 <= i < |p| ==> p[i].0 == q[i].0 && p[i].1.ref == q[i].1.ref && |p[i].1.args| == |q[i].1.args|
    requires forall i, j :: 0 <= i < |p| && -1 <= j < |p[i].1.args| ==> TextAt(p[i].1, j) == TextAt(q[i].1, j)
    ensures p == q
  {
    forall i | 0 <= i < |p| ensures p[i] == q[i] {
      assert TextAt(p[i].1, -1) == TextAt(q[i].1, -1);
      forall j | 0 <= j < |p[i].1.args| ensures p[i].1.args[j] == q[i].1.args[j] {
        assert TextAt(p[i].1, j) == TextAt(q[i].1, j);
      }
      assert p[i].1.args == q[i].1.args;
      assert p[i].1 == q[i].1;
    }
  }

  /** Where `SetAt` writes, and that it leaves every other place alone. */
  lemma SetAtAt(p: Plan, loc: Location, filler: string, i: nat, j: int)
    requires DistinctKeys(p) && i < |p| && -1 <= j < |p[i].1.args|
    ensures DistinctKeys(SetAt(p, loc, filler)) && |SetAt(p, loc, filler)| == |p|
    ensures SetAt(p, loc, filler)[i].0 == p[i].0 && SetAt(p, loc, filler)[i].1.ref == p[i].1.ref
    ensures |SetAt(p, loc, filler)[i].1.args| == |p[i].1.args|
    ensures TextAt(SetAt(p, loc, filler)[i].1, j) == if loc == Location(p[i].0, j) then filler else TextAt(p[i].1, j)
  {
    GetAt(p, i);
    if ValidLoc(p, loc) {
      var s := Get(p, loc.stepKey).value;
      var s' := if loc.argIdx == -1 then s.(operation := filler) else s.(args := s.args[loc.argIdx := filler]);
      var r := SetAt(p, loc, filler);
      PutDistinct(p, loc.stepKey, s');
      GetAt(r, i);
      PutGet(p, loc.stepKey, s', p[i].0);
    }
  }

  /** An element of a non-empty sequence is in its front or is its last element. */
  lemma InSnoc<T>(xs: seq<T>, x: T)
    requires xs != []
    ensures x in xs <==> x in xs[..|xs| - 1] || x == xs[|xs| - 1]
  {
    assert xs == xs[..|xs| - 1] + [xs[|xs| - 1]];
  }

  /** An element of a concatenation is an element of one of its parts. */
  lemma InAppend<T>(xs: seq<T>, ys: seq<T>, x: T)
    ensures x in xs + ys <==> x in xs || x in ys
  {
  }

  /** `SetAll` writes the filler at exactly the listed places. */
  lemma {:induction false} SetAllAt(p: Plan, locs: seq<Location>, filler: string, i: nat, j: int)
    requires DistinctKeys(p) && i < |p| && -1 <= j < |p[i].1.args|
    ensures DistinctKeys(SetAll(p, locs, filler)) && |SetAll(p, locs, filler)| == |p|
    ensures SetAll(p, locs, filler)[i].0 == p[i].0 && SetAll(p, locs, filler)[i].1.ref == p[i].1.ref
    ensures |SetAll(p, locs, filler)[i].1.args| == |p[i].1.args|
    ensures TextAt(SetAll(p, locs, filler)[i].1, j) == if Location(p[i].0, j) in locs then filler else TextAt(p[i].1, j)
  {
    if locs != [] {
      var front, last := locs[..|locs| - 1], locs[|locs| - 1];
      SetAllAt(p, front, filler, i, j);
      var q := SetAll(p, front, filler);
      SetAtAt(q, last, filler, i, j);
      assert SetAll(p, locs, filler) == SetAt(q, last, filler);
      InSnoc(locs, Location(p[i].0, j));
    }
  }

  /** A filler dictionary with one more item looks that key up, and every other as before. */
  lemma GetSnoc(d: Dict<string>, k: string, v: string, j: string)
    requires !HasKey(d, k)
    ensures Get(d + [(k, v)], j) == if j == k then Some(v) else Get(d, j)
  {
    PutGet(d, k, v, j);
  }

  /** Filling with fillers that agree on every slot key of the template gives the same plan. */
  lemma FilledAgree(plan: Plan, f: Dict<string>, g: Dict<string>)
    requires forall i, j :: 0 <= i < |plan| && -1 <= j < |plan[i].1.args| ==>
      FillText(TextAt(plan[i].1, j), f) == FillText(TextAt(plan[i].1, j), g)
    ensures Filled(plan, f) == Filled(plan, g)
  {
    forall i, j | 0 <= i < |plan| && -1 <= j < |plan[i].1.args|
      ensures TextAt(Filled(plan, f)[i].1, j) == TextAt(Filled(plan, g)[i].1, j)
    {
      FilledAt(plan, f, i, j);
      FilledAt(plan, g, i, j);
    }
    PlanExt(Filled(plan, f), Filled(plan, g));
  }

  /** One more filler whose key is no slot key of the template changes nothing. */
  lemma FillNoSlot(plan: Plan, f: Dict<string>, k: string, v: string)
    requires !HasKey(f, k) && forall l :: !SlotOccursAt(plan, k, l)
    ensures Filled(plan, f + [(k, v)]) == Filled(plan, f)
  {
    forall i, j | 0 <= i < |plan| && -1 <= j < |plan[i].1.args|
      ensures FillText(TextAt(plan[i].1, j), f + [(k, v)]) == FillText(TextAt(plan[i].1, j), f)
    {
      GetSnoc(f, k, v, StripBraces(TextAt(plan[i].1, j)));
      assert !SlotOccursAt(plan, k, Location(plan[i].0, j));
    }
    FilledAgree(plan, f + [(k, v)], f);
  }

  /** The place `(i, j)` after writing the places of slot `k`: the filler when the template holds slot `k` there. */
  lemma FillSlotAt(plan: Plan, f: Dict<string>, k: string, v: string, locs: seq<Location>, i: nat, j: int)
    requires DistinctKeys(plan) && !HasKey(f, k) && forall l :: l in locs <==> SlotOccursAt(plan, k, l)
    requires i < |plan| && -1 <= j < |plan[i].1.args|
    ensures |SetAll(Filled(plan, f), locs, v)| == |plan|
    ensures SetAll(Filled(plan, f), locs, v)[i].0 == plan[i].0
    ensures SetAll(Filled(plan, f), locs, v)[i].1.ref == plan[i].1.ref
    ensures |SetAll(Filled(plan, f), locs, v)[i].1.args| == |plan[i].1.args|
    ensures TextAt(SetAll(Filled(plan, f), locs, v)[i].1, j) == FillText(TextAt(plan[i].1, j), f + [(k, v)])
  {
    var q := Filled(plan, f);
    assert DistinctKeys(q) by {
      forall a, b | 0 <= a < b < |q| ensures q[a].0 != q[b].0 { }
    }
    SetAllAt(q, locs, v, i, j);
    FilledAt(plan, f, i, j);
    var t := TextAt(plan[i].1, j);
    GetSnoc(f, k, v, StripBraces(t));
    if SlotOccursAt(plan, k, Location(plan[i].0, j)) {
      var i' :| 0 <= i' < |plan| && plan[i'].0 == plan[i].0 && -1 <= j < |plan[i'].1.args|
        && IsSlot(TextAt(plan[i'].1, j)) && StripBraces(TextAt(plan[i'].1, j)) == k;
      assert i' == i;
    } else {
      assert !(IsSlot(t) && StripBraces(t) == k);
    }
  }

  /** One more filler whose key is a slot key writes it at exactly that slot's places. */
  lemma FillSlot(plan: Plan, f: Dict<string>, k: string, v: string, locs: seq<Location>)
    requires DistinctKeys(plan) && !HasKey(f, k) && forall l :: l in locs <==> SlotOccursAt(plan, k, l)
    ensures SetAll(Filled(plan, f), locs, v) == Filled(plan, f + [(k, v)])
  {
    var r := SetAll(Filled(plan, f), locs, v);
    var want := Filled(plan, f + [(k, v)]);
    if plan == [] {
      SetAllEmpty(locs, v);
    } else {
      FillSlotAt(plan, f, k, v, locs, 0, -1);
    }
    forall i | 0 <= i < |plan|
      ensures r[i].0 == want[i].0 && r[i].1.ref == want[i].1.ref && |r[i].1.args| == |want[i].1.args|
    {
      FillSlotAt(plan, f, k, v, locs, i, -1);
    }
    forall i, j | 0 <= i < |plan| && -1 <= j < |plan[i].1.args|
      ensures TextAt(r[i].1, j) == TextAt(want[i].1, j)
    {
      FillSlotAt(plan, f, k, v, locs, i, j);
      FilledAt(plan, f + [(k, v)], i, j);
    }
    PlanExt(r, want);
  }

  /** Filling places of an empty plan gives the empty plan. */
  lemma {:induction false} SetAllEmpty(locs: seq<Location>, v: string)
    ensures SetAll([], locs, v) == []
  {
    if locs != [] {
      SetAllEmpty(locs[..|locs| - 1], v);
    }
  }

  /** Filling with no fillers leaves the template as it is. */
  lemma FilledNone(plan: Plan)
    ensures Filled(plan, []) == plan
  {
    forall i, j | 0 <= i < |plan| && -1 <= j < |plan[i].1.args|
      ensures TextAt(Filled(plan, [])[i].1, j) == TextAt(plan[i].1, j)
    {
      FilledAt(plan, [], i, j);
    }
    PlanExt(Filled(plan, []), plan);
  }

  /** After the first `n` fillers, the copy is the template filled with those fillers. */
  lemma {:induction false} FillLoopFilled(plan: Plan, fillers: Dict<string>, n: nat)
    requires DistinctKeys(plan) && DistinctKeys(fillers) && n <= |fillers|
    ensures FillLoop(plan, fillers, n).0 == Filled(plan, fillers[..n])
  {
    if n == 0 {
      FilledNone(plan);
    } else {
      FillLoopFilled(plan, fillers, n - 1);
      var f := fillers[..n - 1];
      var (k, v) := fillers[n - 1];
      PrefixStep(fillers, n);
      var prev := FillLoop(plan, fillers, n - 1).0;
      assert FillLoop(plan, fillers, n).0 ==
        match Get(SlotsOf(plan), k)
        case None => prev
        case Some(locs) => SetAll(prev, locs, v);
      FillStep(plan, f, k, v);
    }
  }

  /** The first `n` fillers are the first `n - 1` and one more, whose key the others do not have. */
  lemma PrefixStep(fillers: Dict<string>, n: nat)
    requires DistinctKeys(fillers) && 0 < n <= |fillers|
    ensures fillers[..n] == fillers[..n - 1] + [fillers[n - 1]]
    ensures !HasKey(fillers[..n - 1], fillers[n - 1].0)
  {
    DistinctFront(fillers[..n]);
    assert fillers[..n][..n - 1] == fillers[..n - 1];
  }

  /** One step of the loop: writing the places of slot `k` is filling with one more filler. */
  lemma FillStep(plan: Plan, f: Dict<string>, k: string, v: string)
    requires DistinctKeys(plan) && !HasKey(f, k)
    ensures Filled(plan, f + [(k, v)]) ==
      match Get(SlotsOf(plan), k)
      case None => Filled(plan, f)
      case Some(locs) => SetAll(Filled(plan, f), locs, v)
  {
    var info := SlotsOf(plan);
    SlotsOfGet(plan, k, Location("", 0));
    if Get(info, k).None? {
      FillNoSlot(plan, f, k, v);
    } else {
      var locs := Get(info, k).value;
      forall l ensures l in locs <==> SlotOccursAt(plan, k, l) {
        SlotsOfGet(plan, k, l);
      }
      FillSlot(plan, f, k, v, locs);
    }
  }

  /** The whole loop over the fillers: the template filled with them, and whether one was a slot key. */
  lemma FillLoopMeaning(plan: Plan, fillers: Dict<string>)
    requires DistinctKeys(plan) && DistinctKeys(fillers)
    ensures FillLoop(plan, fillers, |fillers|).0 == Filled(plan, fillers)
    ensures FillLoop(plan, fillers, |fillers|).1 <==> FillsSome(plan, fillers, |fillers|)
  {
    FillLoopFilled(plan, fillers, |fillers|);
    FillLoopAny(plan, fillers, |fillers|);
    assert fillers[..|fillers|] == fillers;
  }

  /** Fillers none of whose keys is a slot key of the template leave it as it is. */
  lemma FilledUnchanged(plan: Plan, fillers: Dict<string>)
    requires !FillsSome(plan, fillers, |fillers|)
    ensures Filled(plan, fillers) == plan
  {
    forall i, j | 0 <= i < |plan| && -1 <= j < |plan[i].1.args|
      ensures TextAt(Filled(plan, fillers)[i].1, j) == TextAt(plan[i].1, j)
    {
      FilledAt(plan, fillers, i, j);
      var t := TextAt(plan[i].1, j);
      if IsSlot(t) && Get(fillers, StripBraces(t)).Some? {
        var a :| 0 <= a < |fillers| && fillers[a] == (StripBraces(t), Get(fillers, StripBraces(t)).value);
        assert SlotOccursAt(plan, fillers[a].0, Location(plan[i].0, j));
      }
    }
    PlanExt(Filled(plan, fillers), plan);
  }

  /**
   * `fill_plan` fills every slot whose key has a filler, and only those:
   * when no filler key is a slot key of the template, the template comes
   * back unchanged.
   */
  lemma FillPlanMeaning(plan: Plan, fillers: Dict<string>)
    requires DistinctKeys(plan) && DistinctKeys(fillers)
    ensures FillOutcome(plan, fillers) == Filled(plan, fillers)
    ensures !FillsSome(plan, fillers, |fillers|) ==> FillOutcome(plan, fillers) == plan
  {
    FillLoopMeaning(plan, fillers);
    if !FillsSome(plan, fillers, |fillers|) {
      FilledUnchanged(plan, fillers);
    }
  }

  // ---------------------------------------------------------------------------
  // Deduplication and generation
  // ---------------------------------------------------------------------------

  /** `item in unique_list`: some kept plan compares equal (as dictionaries) to `p`. */
  predicate Listed(p: Plan, kept: seq<Plan>)
  {
    exists j :: 0 <= j < |kept| && SubplanEq(kept[j], p)
  }

  /** `dedupe_list_of_dict(lst)`: each plan, in order, is kept unless an equal one is kept already. */
  function Deduped(lst: seq<Plan>): seq<Plan>
  {
    if lst == [] then []
    else
      var kept := Deduped(lst[..|lst| - 1]);
      if Listed(lst[|lst| - 1], kept) then kept else kept + [lst[|lst| - 1]]
  }

  /** The plans with no equal plan before them in the list, in order. */
  ghost function FirstOccurrences(lst: seq<Plan>): seq<Plan>
  {
    if lst == [] then []
    else
      var front := lst[..|lst| - 1];
      FirstOccurrences(front) + if Listed(lst[|lst| - 1], front) then [] else [lst[|lst| - 1]]
  }

  /** Every plan of the list is a dictionary. */
  ghost predicate AllDistinct(lst: seq<Plan>)
  {
    forall i :: 0 <= i < |lst| ==> DistinctKeys(lst[i])
  }

  /** Dictionary equality is symmetric and transitive. */
  lemma SubplanEqTrans(a: Plan, b: Plan, c: Plan)
    requires DistinctKeys(a) && DistinctKeys(b) && DistinctKeys(c)
    requires SubplanEq(a, b) && SubplanEq(b, c)
    ensures SubplanEq(a, c)
  {
    forall i | 0 <= i < |a| ensures Get(c, a[i].0).Some? && StepEq(a[i].1, Get(c, a[i].0).value) {
      var m :| 0 <= m < |b| && b[m] == (a[i].0, Get(b, a[i].0).value);
      StepEqEquivalence(a[i].1, b[m].1, Get(c, a[i].0).value, "");
    }
  }

  lemma {:induction false} DedupeFrom(lst: seq<Plan>)
    ensures forall a :: 0 <= a < |Deduped(lst)| ==> Deduped(lst)[a] in lst
  {
    if lst != [] {
      var front := lst[..|lst| - 1];
      DedupeFrom(front);
      assert forall x :: x in front ==> x in lst;
    }
  }

  /** No two kept plans are equal. */
  lemma {:induction false} DedupeUnique(lst: seq<Plan>)
    ensures forall a, b :: 0 <= a < b < |Deduped(lst)| ==> !SubplanEq(Deduped(lst)[a], Deduped(lst)[b])
  {
    if lst != [] {
      DedupeUnique(lst[..|lst| - 1]);
    }
  }

  /** Every plan of the list has an equal kept plan. */
  lemma {:induction false} DedupeCovers(lst: seq<Plan>)
    requires AllDistinct(lst)
    ensures forall i :: 0 <= i < |lst| ==> Listed(lst[i], Deduped(lst))
  {
    if lst != [] {
      var front, last := lst[..|lst| - 1], lst[|lst| - 1];
      var kept := Deduped(front);
      assert AllDistinct(front) by {
        forall i | 0 <= i < |front| ensures DistinctKeys(front[i]) {
          assert front[i] == lst[i];
        }
      }
      DedupeCovers(front);
      forall i | 0 <= i < |lst| ensures Listed(lst[i], Deduped(lst)) {
        if i < |front| {
          assert lst[i] == front[i];
          var j :| 0 <= j < |kept| && SubplanEq(kept[j], front[i]);
          assert Deduped(lst)[j] == kept[j];
        } else if !Listed(last, kept) {
          SubplanEqRefl(last);
          assert Deduped(lst)[|kept|] == last;
        }
      }
    }
  }

  /** A plan has an equal kept plan exactly when it has an equal plan in the list. */
  lemma ListedKept(lst: seq<Plan>, x: Plan)
    requires AllDistinct(lst) && DistinctKeys(x)
    ensures Listed(x, Deduped(lst)) <==> Listed(x, lst)
  {
    if Listed(x, Deduped(lst)) {
      ListedKeptSound(lst, x);
    }
    if Listed(x, lst) {
      ListedKeptComplete(lst, x);
    }
  }

  lemma ListedKeptSound(lst: seq<Plan>, x: Plan)
    requires Listed(x, Deduped(lst))
    ensures Listed(x, lst)
  {
    var kept := Deduped(lst);
    DedupeFrom(lst);
    var j :| 0 <= j < |kept| && SubplanEq(kept[j], x);
    assert kept[j] in lst;
    var i :| 0 <= i < |lst| && lst[i] == kept[j];
    assert 0 <= i < |lst| && SubplanEq(lst[i], x);
  }

  lemma ListedKeptComplete(lst: seq<Plan>, x: Plan)
    requires AllDistinct(lst) && DistinctKeys(x) && Listed(x, lst)
    ensures Listed(x, Deduped(lst))
  {
    var kept := Deduped(lst);
    DedupeCovers(lst);
    DedupeFrom(lst);
    var j :| 0 <= j < |lst| && SubplanEq(lst[j], x);
    assert Listed(lst[j], kept);
    var m :| 0 <= m < |kept| && SubplanEq(kept[m], lst[j]);
    assert kept[m] in lst;
    var i :| 0 <= i < |lst| && lst[i] == kept[m];
    SubplanEqTrans(kept[m], lst[j], x);
    assert 0 <= m < |kept| && SubplanEq(kept[m], x);
  }

  /** `dedupe_list_of_dict` keeps exactly the first plan of each group of equal plans. */
  lemma {:induction false} DedupeFirstOccurrences(lst: seq<Plan>)
    requires AllDistinct(lst)
    ensures Deduped(lst) == FirstOccurrences(lst)
  {
    if lst != [] {
      var front := lst[..|lst| - 1];
      assert AllDistinct(front) by {
        forall i | 0 <= i < |front| ensures DistinctKeys(front[i]) {
          assert front[i] == lst[i];
        }
      }
      DedupeFirstOccurrences(front);
      ListedKept(front, lst[|lst| - 1]);
    }
  }

  /**
   * The plans `generate_plans_with_specified_slots` collects before
   * deduplication: for each filler dictionary in order, the filled copy
   * when it filled a slot.
   */
  function Candidates(plan: Plan, fillersList: seq<Dict<string>>): seq<Plan>
  {
    if fillersList == [] then []
    else
      var fillers := fillersList[|fillersList| - 1];
      var r := FillLoop(plan, fillers, |fillers|);
      Candidates(plan, fillersList[..|fillersList| - 1]) + if r.1 then [r.0] else []
  }

  /** `generate_plans_with_specified_slots(partial_plan, fillers_for_slots)`. */
  function Generated(plan: Plan, fillersList: seq<Dict<string>>): seq<Plan>
  {
    Deduped(Candidates(plan, fillersList))
  }

  /** The filled plan is still a dictionary: it has the template's keys. */
  lemma FilledDistinct(plan: Plan, fillers: Dict<string>)
    requires DistinctKeys(plan)
    ensures DistinctKeys(Filled(plan, fillers))
  {
  }

  /** Every filler dictionary of the list is a dictionary. */
  ghost predicate AllDicts(fillersList: seq<Dict<string>>)
  {
    forall k :: 0 <= k < |fillersList| ==> DistinctKeys(fillersList[k])
  }

  /** `x` is the template filled by one of the dictionaries, one that fills a slot. */
  ghost predicate FillingOf(plan: Plan, fillersList: seq<Dict<string>>, x: Plan)
  {
    exists k :: 0 <= k < |fillersList| && FillsSome(plan, fillersList[k], |fillersList[k]|)
      && x == Filled(plan, fillersList[k])
  }

  lemma FillingOfFront(plan: Plan, fillersList: seq<Dict<string>>, x: Plan)
    requires fillersList != [] && FillingOf(plan, fillersList[..|fillersList| - 1], x)
    ensures FillingOf(plan, fillersList, x)
  {
    var front := fillersList[..|fillersList| - 1];
    var k :| 0 <= k < |front| && FillsSome(plan, front[k], |front[k]|) && x == Filled(plan, front[k]);
    assert fillersList[k] == front[k];
  }

  /** Each candidate is the template filled by a dictionary that fills a slot. */
  lemma {:induction false} CandidatesSound(plan: Plan, fillersList: seq<Dict<string>>)
    requires DistinctKeys(plan) && AllDicts(fillersList)
    ensures forall a :: 0 <= a < |Candidates(plan, fillersList)| ==> FillingOf(plan, fillersList, Candidates(plan, fillersList)[a])
  {
    if fillersList != [] {
      var front, last := fillersList[..|fillersList| - 1], fillersList[|fillersList| - 1];
      var c, cf := Candidates(plan, fillersList), Candidates(plan, front);
      assert AllDicts(front) by {
        forall k | 0 <= k < |front| ensures DistinctKeys(front[k]) {
          assert front[k] == fillersList[k];
        }
      }
      CandidatesSound(plan, front);
      FillLoopMeaning(plan, last);
      forall a | 0 <= a < |c| ensures FillingOf(plan, fillersList, c[a]) {
        if a < |cf| {
          assert c[a] == cf[a];
          FillingOfFront(plan, fillersList, c[a]);
        } else {
          assert c[a] == Filled(plan, last);
          assert FillsSome(plan, fillersList[|fillersList| - 1], |fillersList[|fillersList| - 1]|);
        }
      }
    }
  }

  /** Each filling by a dictionary that fills a slot is a candidate. */
  lemma {:induction false} CandidatesComplete(plan: Plan, fillersList: seq<Dict<string>>)
    requires DistinctKeys(plan) && AllDicts(fillersList)
    ensures forall k :: 0 <= k < |fillersList| && FillsSome(plan, fillersList[k], |fillersList[k]|) ==>
      Filled(plan, fillersList[k]) in Candidates(plan, fillersList)
  {
    if fillersList != [] {
      var front, last := fillersList[..|fillersList| - 1], fillersList[|fillersList| - 1];
      var c, cf := Candidates(plan, fillersList), Candidates(plan, front);
      assert AllDicts(front) by {
        forall k | 0 <= k < |front| ensures DistinctKeys(front[k]) {
          assert front[k] == fillersList[k];
        }
      }
      CandidatesComplete(plan, front);
      FillLoopMeaning(plan, last);
      var r := FillLoop(plan, last, |last|);
      assert c == cf + if r.1 then [r.0] else [];
      forall k | 0 <= k < |fillersList| && FillsSome(plan, fillersList[k], |fillersList[k]|)
        ensures Filled(plan, fillersList[k]) in c
      {
        if k < |front| {
          assert front[k] == fillersList[k];
          InAppend(cf, if r.1 then [r.0] else [], Filled(plan, front[k]));
        } else {
          assert fillersList[k] == last;
          assert c == cf + [Filled(plan, last)];
          InAppend(cf, [Filled(plan, last)], Filled(plan, last));
        }
      }
    }
  }

  /** The candidates are dictionaries. */
  lemma CandidatesDistinct(plan: Plan, fillersList: seq<Dict<string>>)
    requires DistinctKeys(plan) && AllDicts(fillersList)
    ensures AllDistinct(Candidates(plan, fillersList))
  {
    var c := Candidates(plan, fillersList);
    CandidatesSound(plan, fillersList);
    forall a | 0 <= a < |c| ensures DistinctKeys(c[a]) {
      var k :| 0 <= k < |fillersList| && c[a] == Filled(plan, fillersList[k]);
      FilledDistinct(plan, fillersList[k]);
    }
  }

  lemma GeneratedSound(plan: Plan, fillersList: seq<Dict<string>>)
    requires DistinctKeys(plan) && AllDicts(fillersList)
    ensures forall a :: 0 <= a < |Generated(plan, fillersList)| ==> FillingOf(plan, fillersList, Generated(plan, fillersList)[a])
  {
    var c := Candidates(plan, fillersList);
    var g := Deduped(c);
    CandidatesSound(plan, fillersList);
    DedupeFrom(c);
    forall a | 0 <= a < |g| ensures FillingOf(plan, fillersList, g[a]) {
      var i :| 0 <= i < |c| && c[i] == g[a];
    }
  }

  lemma GeneratedComplete(plan: Plan, fillersList: seq<Dict<string>>)
    requires DistinctKeys(plan) && AllDicts(fillersList)
    ensures forall k :: 0 <= k < |fillersList| && FillsSome(plan, fillersList[k], |fillersList[k]|) ==>
      Listed(Filled(plan, fillersList[k]), Generated(plan, fillersList))
  {
    var c := Candidates(plan, fillersList);
    CandidatesComplete(plan, fillersList);
    CandidatesDistinct(plan, fillersList);
    DedupeCovers(c);
    forall k | 0 <= k < |fillersList| && FillsSome(plan, fillersList[k], |fillersList[k]|)
      ensures Listed(Filled(plan, fillersList[k]), Deduped(c))
    {
      var i :| 0 <= i < |c| && c[i] == Filled(plan, fillersList[k]);
    }
  }

  /**
   * `generate_plans_with_specified_slots` returns pairwise different
   * plans; each is the template filled by one of the dictionaries that
   * fills a slot, and each such filling has an equal plan among them.
   */
  lemma GeneratedMeaning(plan: Plan, fillersList: seq<Dict<string>>)
    requires DistinctKeys(plan) && AllDicts(fillersList)
    ensures forall a, b :: 0 <= a < b < |Generated(plan, fillersList)| ==>
      !SubplanEq(Generated(plan, fillersList)[a], Generated(plan, fillersList)[b])
    ensures forall a :: 0 <= a < |Generated(plan, fillersList)| ==> FillingOf(plan, fillersList, Generated(plan, fillersList)[a])
    ensures forall k :: 0 <= k < |fillersList| && FillsSome(plan, fillersList[k], |fillersList[k]|) ==>
      Listed(Filled(plan, fillersList[k]), Generated(plan, fillersList))
  {
    DedupeUnique(Candidates(plan, fillersList));
    GeneratedSound(plan, fillersList);
    GeneratedComplete(plan, fillersList);
  }

  // ---------------------------------------------------------------------------
  // The methods
  // ---------------------------------------------------------------------------

  /**
   * The two branches of `identify_slots_in_plan_template` for a slot:
   * `slot_info[key].append(loc)` when the key is known, and
   * `slot_info[key] = [loc]` otherwise; together they extend the key's list.
   */
  function Record(info: SlotInfo, key: string, loc: Location): (r: SlotInfo)
    ensures r == Extend(info, key, [loc])
  {
    if HasKey(info, key) then Put(info, key, Get(info, key).value + [loc])
    else
      assert Get(info, key).GetOr([]) + [loc] == [loc];
      Put(info, key, [loc])
  }

  /** Grouping one more text adds its slot, if it holds one. */
  lemma GroupSlotAt(occ: seq<Occurrence>, text: string, loc: Location)
    ensures Group(occ + SlotAt(text, loc)) == if IsSlot(text) then Record(Group(occ), StripBraces(text), loc) else Group(occ)
  {
    if IsSlot(text) {
      assert (occ + SlotAt(text, loc))[..|occ|] == occ;
    } else {
      assert occ + SlotAt(text, loc) == occ;
    }
  }

  lemma ArgOccurrencesStep(before: seq<Occurrence>, k: string, args: seq<string>, j: nat)
    requires j < |args|
    ensures before + ArgOccurrences(k, args, j + 1) == before + ArgOccurrences(k, args, j) + SlotAt(args[j], Location(k, j))
  {
  }

  lemma OccurrencesStep(plan: Plan, i: nat)
    requires i < |plan|
    ensures Occurrences(plan[..i + 1]) == Occurrences(plan[..i]) + SlotAt(plan[i].1.operation, Location(plan[i].0, -1))
      + ArgOccurrences(plan[i].0, plan[i].1.args, |plan[i].1.args|)
  {
    assert plan[..i + 1][..i] == plan[..i];
  }

  /** `identify_slots_in_plan_template(plan_template)`. */
  method IdentifySlots(plan: Plan) returns (info: SlotInfo)
    ensures info == SlotsOf(plan)
  {
    info := [];
    for i := 0 to |plan|
      invariant info == Group(Occurrences(plan[..i]))
    {
      var (k, step) := plan[i];
      if IsSlot(step.operation) {
        info := Record(info, StripBraces(step.operation), Location(k, -1));
      }
      GroupSlotAt(Occurrences(plan[..i]), step.operation, Location(k, -1));
      info := IdentifyArgSlots(info, Occurrences(plan[..i]) + SlotAt(step.operation, Location(k, -1)), k, step.args);
      OccurrencesStep(plan, i);
    }
    assert plan[..|plan|] == plan;
  }

  /** The inner loop of `identify_slots_in_plan_template`, over the arguments of the step under `k`. */
  method IdentifyArgSlots(info0: SlotInfo, ghost before: seq<Occurrence>, k: string, args: seq<string>) returns (info: SlotInfo)
    requires info0 == Group(before)
    ensures info == Group(before + ArgOccurrences(k, args, |args|))
  {
    info := info0;
    assert before + ArgOccurrences(k, args, 0) == before;
    var j := 0;
    while j < |args|
      invariant j <= |args|
      invariant info == Group(before + ArgOccurrences(k, args, j))
    {
      GroupSlotAt(before + ArgOccurrences(k, args, j), args[j], Location(k, j));
      ArgOccurrencesStep(before, k, args, j);
      if IsSlot(args[j]) {
        info := Record(info, StripBraces(args[j]), Location(k, j));
      }
      j := j + 1;
    }
  }

  /**
   * The filling loop `fill_plan` and `generate_plans_with_specified_slots`
   * share: the copy of the template with the slots of each filler key
   * written, and whether any was.
   */
  method FillCopy(plan: Plan, info: SlotInfo, fillers: Dict<string>) returns (filled: Plan, any: bool)
    requires info == SlotsOf(plan)
    ensures (filled, any) == FillLoop(plan, fillers, |fillers|)
  {
    filled, any := plan, false;
    for n := 0 to |fillers|
      invariant (filled, any) == FillLoop(plan, fillers, n)
    {
      var (slot, filler) := fillers[n];
      var found := Get(info, slot);
      if found.Some? {
        filled := FillLocations(filled, found.value, filler);
        any := true;
      }
    }
  }

  /** The inner loop of `fill_plan`: write `filler` at every location of one slot. */
  method FillLocations(plan: Plan, locs: seq<Location>, filler: string) returns (filled: Plan)
    ensures filled == SetAll(plan, locs, filler)
  {
    filled := plan;
    for m := 0 to |locs|
      invariant filled == SetAll(plan, locs[..m], filler)
    {
      filled := SetAt(filled, locs[m], filler);
      assert locs[..m + 1][..m] == locs[..m];
    }
    assert locs[..|locs|] == locs;
  }

  /** `fill_plan(plan, slot_fillers)`. */
  method FillPlan(plan: Plan, fillers: Dict<string>) returns (r: Plan)
    ensures r == FillOutcome(plan, fillers)
  {
    var info := IdentifySlots(plan);
    var filled, any := FillCopy(plan, info, fillers);
    r := if any then filled else plan;
  }

  /** `dedupe_list_of_dict(lst)`. */
  method DedupeList(lst: seq<Plan>) returns (unique: seq<Plan>)
    ensures unique == Deduped(lst)
  {
    unique := [];
    for i := 0 to |lst|
      invariant unique == Deduped(lst[..i])
    {
      assert lst[..i + 1][..i] == lst[..i];
      if !Listed(lst[i], unique) {
        unique := unique + [lst[i]];
      }
    }
    assert lst[..|lst|] == lst;
  }

  /** `generate_plans_with_specified_slots(partial_plan, fillers_for_slots)`. */
  method GeneratePlans(plan: Plan, fillersList: seq<Dict<string>>) returns (plans: seq<Plan>)
    ensures plans == Generated(plan, fillersList)
  {
    var partial: seq<Plan> := [];
    var info := IdentifySlots(plan);
    for i := 0 to |fillersList|
      invariant partial == Candidates(plan, fillersList[..i])
    {
      var filled, any := FillCopy(plan, info, fillersList[i]);
      assert fillersList[..i + 1][..i] == fillersList[..i];
      if any {
        partial := partial + [filled];
      }
    }
    assert fillersList[..|fillersList|] == fillersList;
    plans := DedupeList(partial);
  }
}
