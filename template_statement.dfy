/**
 * `core/Planning/StatementGeneratorTemplateBased.py`: a factual statement
 * made from a blueprint's statement template. The template's slots
 * `{Name:n}` are filled with expressed plan steps, the metric's name and
 * the blueprint's fillers; its result and unit slots take the plan's
 * results, once per row inside the `<repeat>` segment when there are
 * several rows; a filter phrase goes before the final punctuation; and the
 * first letter is capitalised.
 */
module TemplateStatements {

  import opened Wrappers
  import opened Dicts
  import opened Chars
  import opened Text
  import opened Json
  import opened PlanningUtils
  import opened Placeholders
  import opened StatementGenerators
  import opened StepExpressors
  import opened QuestionGenerators
  import RingEntities
  import AnalysisEngines

  // ---------------------------------------------------------------------------
  // Finding the slots: re.findall(r'{(?<={)[a-zA-Z]+:\d+}', template)
  // ---------------------------------------------------------------------------

  predicate IsLetter(c: char)
  {
    'a' <= c <= 'z' || 'A' <= c <= 'Z'
  }

  predicate IsDigit(c: char)
  {
    '0' <= c <= '9'
  }

  /** A slot the expression matches: `{` `name` `:` `digits` `}`. */
  datatype SlotMatch = SlotMatch(name: string, digits: string)
  {
    function Text(): string
    {
      "{" + name + ":" + digits + "}"
    }

    /** The shape the expression demands: at least one letter and at least one digit. */
    predicate WellFormed()
    {
      && name != "" && (forall k :: 0 <= k < |name| ==> IsLetter(name[k]))
      && digits != "" && (forall k :: 0 <= k < |digits| ==> IsDigit(digits[k]))
    }
  }

  /** Where a slot's text sits in a longer text. */
  lemma SlotTextAt(s: string, i: nat, n: nat, m: nat)
    requires i < n < m < |s|
    ensures s[i..m + 1] == [s[i]] + s[i + 1..n] + [s[n]] + s[n + 1..m] + [s[m]]
  {
  }

  /** The end of the run of letters that starts at `k`. */
  function LettersEnd(s: string, k: nat): (r: nat)
    requires k <= |s|
    ensures k <= r <= |s| && (r < |s| ==> !IsLetter(s[r]))
    ensures forall m :: k <= m < r ==> IsLetter(s[m])
    decreases |s| - k
  {
    if k == |s| || !IsLetter(s[k]) then k else LettersEnd(s, k + 1)
  }

  /** The end of the run of digits that starts at `k`. */
  function DigitsEnd(s: string, k: nat): (r: nat)
    requires k <= |s|
    ensures k <= r <= |s| && (r < |s| ==> !IsDigit(s[r]))
    ensures forall m :: k <= m < r ==> IsDigit(s[m])
    decreases |s| - k
  {
    if k == |s| || !IsDigit(s[k]) then k else DigitsEnd(s, k + 1)
  }

  /** The slot that starts at position `i`, if one does. */
  function SlotAt(s: string, i: nat): (r: Option<SlotMatch>)
    requires i < |s|
    ensures r.Some? ==> r.value.WellFormed() && OccursAt(s, r.value.Text(), i)
  {
    if s[i] != '{' then None
    else
      var n := LettersEnd(s, i + 1);
      if n == i + 1 || n == |s| || s[n] != ':' then None
      else
        var m := DigitsEnd(s, n + 1);
        if m == n + 1 || m == |s| || s[m] != '}' then None
        else
          var slot := SlotMatch(s[i + 1..n], s[n + 1..m]);
          SlotTextAt(s, i, n, m);
          Some(slot)
  }

  /** The slots from position `i` on, left to right, each scan resuming after the slot it found. */
  function SlotsFrom(s: string, i: nat): (r: seq<SlotMatch>)
    requires i <= |s|
    ensures forall k :: 0 <= k < |r| ==> r[k].WellFormed()
    decreases |s| - i
  {
    if i == |s| then []
    else
      match SlotAt(s, i)
      case Some(slot) => [slot] + SlotsFrom(s, i + |slot.Text()|)
      case None => SlotsFrom(s, i + 1)
  }

  /** `slots_to_fill`: every slot of the template, in order, repeats included. */
  function SlotsIn(s: string): (r: seq<SlotMatch>)
    ensures forall k :: 0 <= k < |r| ==> r[k].WellFormed()
  {
    SlotsFrom(s, 0)
  }

  /** A text without an opening brace from `i` on has no slot there. */
  lemma {:induction false} NoSlotsWithoutBraces(s: string, i: nat)
    requires i <= |s| && forall k :: i <= k < |s| ==> s[k] != '{'
    ensures SlotsFrom(s, i) == []
    decreases |s| - i
  {
    if i < |s| {
      NoSlotsWithoutBraces(s, i + 1);
    }
  }

  lemma {:induction false} LettersEndAt(s: string, k: nat, e: nat)
    requires k <= e < |s| && !IsLetter(s[e]) && forall m :: k <= m < e ==> IsLetter(s[m])
    ensures LettersEnd(s, k) == e
    decreases e - k
  {
    if k < e {
      LettersEndAt(s, k + 1, e);
    }
  }

  lemma {:induction false} DigitsEndAt(s: string, k: nat, e: nat)
    requires k <= e < |s| && !IsDigit(s[e]) && forall m :: k <= m < e ==> IsDigit(s[m])
    ensures DigitsEnd(s, k) == e
    decreases e - k
  {
    if k < e {
      DigitsEndAt(s, k + 1, e);
    }
  }

  /** A well-formed slot at the start of a text is found there. */
  lemma SlotFoundAtStart(slot: SlotMatch, rest: string)
    requires slot.WellFormed()
    ensures SlotAt(slot.Text() + rest, 0) == Some(slot)
  {
    var s := slot.Text() + rest;
    var n := |slot.name| + 1;
    var m := n + 1 + |slot.digits|;
    assert s[0] == '{' && s[n] == ':' && s[m] == '}';
    assert s[1..n] == slot.name && s[n + 1..m] == slot.digits;
    LettersEndAt(s, 1, n);
    DigitsEndAt(s, n + 1, m);
  }

  /** A template made of one slot and text without braces has that one slot to fill. */
  lemma SingleSlot(slot: SlotMatch, rest: string)
    requires slot.WellFormed() && BraceFree(rest)
    ensures SlotsIn(slot.Text() + rest) == [slot]
  {
    var s := slot.Text() + rest;
    SlotFoundAtStart(slot, rest);
    assert forall k :: |slot.Text()| <= k < |s| ==> s[k] == rest[k - |slot.Text()|];
    NoSlotsWithoutBraces(s, |slot.Text()|);
  }

  // ---------------------------------------------------------------------------
  // Substring tests on a slot's text
  // ---------------------------------------------------------------------------

  /** `t in s`. */
  predicate Has(s: string, t: string)
  {
    IndexOf(s, t).Some?
  }

  predicate Word(w: string)
  {
    w != "" && forall k :: 0 <= k < |w| ==> IsLetter(w[k])
  }

  /** The characters of a slot's text: its name's letters between a brace and a colon, then digits and a brace. */
  lemma SlotChars(slot: SlotMatch)
    requires slot.WellFormed()
    ensures var t := slot.Text();
      && t[0] == '{' && t[|slot.name| + 1] == ':' && t[|t| - 1] == '}'
      && (forall q :: 1 <= q <= |slot.name| ==> t[q] == slot.name[q - 1])
      && (forall q :: |slot.name| + 1 < q < |t| - 1 ==> IsDigit(t[q]))
  {
    var t := slot.Text();
    forall q | |slot.name| + 1 < q < |t| - 1 ensures IsDigit(t[q]) {
      assert t[q] == slot.digits[q - |slot.name| - 2];
    }
  }

  lemma SlotWordFromName(slot: SlotMatch, w: string)
    requires slot.WellFormed() && Word(w) && Has(slot.name, w)
    ensures Has(slot.Text(), w)
  {
    var t, name := slot.Text(), slot.name;
    var p := IndexOf(name, w).value;
    assert t == "{" + name + (":" + slot.digits + "}");
    assert t[p + 1..p + 1 + |w|] == name[p..p + |w|];
    assert OccursAt(t, w, p + 1);
  }

  lemma SlotWordInName(slot: SlotMatch, w: string)
    requires slot.WellFormed() && Word(w) && Has(slot.Text(), w)
    ensures Has(slot.name, w)
  {
    var t, name := slot.Text(), slot.name;
    SlotChars(slot);
    var j := IndexOf(t, w).value;
    assert t[j] == w[0] && t[j + |w| - 1] == w[|w| - 1];
    assert 1 <= j <= |name|;
    assert j + |w| - 1 <= |name|;
    assert name[j - 1..j - 1 + |w|] == t[j..j + |w|];
    assert OccursAt(name, w, j - 1);
  }

  /** A word occurs in a slot's text exactly when it occurs in the slot's name. */
  lemma SlotHasWord(slot: SlotMatch, w: string)
    requires slot.WellFormed() && Word(w)
    ensures Has(slot.Text(), w) <==> Has(slot.name, w)
  {
    if Has(slot.name, w) {
      SlotWordFromName(slot, w);
    }
    if Has(slot.Text(), w) {
      SlotWordInName(slot, w);
    }
  }

  /** A brace and a word occur in a slot's text exactly when the slot's name starts with the word. */
  lemma SlotHasBraceWord(slot: SlotMatch, w: string)
    requires slot.WellFormed() && Word(w)
    ensures Has(slot.Text(), "{" + w) <==> StartsWith(slot.name, w)
  {
    var t, name, p := slot.Text(), slot.name, "{" + w;
    SlotChars(slot);
    if StartsWith(name, w) {
      assert t[..|p|] == p;
      assert OccursAt(t, p, 0);
    }
    if Has(t, p) {
      var j := IndexOf(t, p).value;
      assert t[j] == '{';
      assert j == 0;
      assert |w| <= |name|;
      assert name[..|w|] == t[1..|p|];
    }
  }

  // ---------------------------------------------------------------------------
  // Reference, metric and blueprint slots
  // ---------------------------------------------------------------------------

  /** `express_step`: the text of the plan step a reference such as "|0|" names. */
  type StepText = string -> Result<string>

  /**
   * One slot of the template: a Reference slot takes the expressed step
   * it numbers, a Metric slot the metric's name, and any other slot that
   * is not a result or unit slot the blueprint's filler under its key
   * (`Name:n`).
   */
  function FillNamed(statement: string, slot: SlotMatch, fillers: Dict<string>, metric: string, express: StepText): Result<string>
  {
    var t := slot.Text();
    if Has(t, "{Reference") then
      var e :- express("|" + slot.digits + "|");
      Ok(Replace(statement, t, e))
    else if Has(t, "{Metric") then Ok(Replace(statement, t, metric))
    else if !Has(t, "Result") && !Has(t, "Unit") then
      var key := slot.name + ":" + slot.digits;
      match Get(fillers, key)
      case None => Err(KeyError(key))
      case Some(v) => Ok(Replace(statement, t, v))
    else Ok(statement)
  }

  lemma SlotWords()
    ensures Word("Reference") && Word("Metric") && Word("Result") && Word("Unit")
  {
  }

  /** Which filling a slot gets is decided by its name. */
  lemma FillNamedBySlotName(statement: string, slot: SlotMatch, fillers: Dict<string>, metric: string, express: StepText)
    requires slot.WellFormed()
    ensures var r, t := FillNamed(statement, slot, fillers, metric, express), slot.Text();
      && (StartsWith(slot.name, "Reference") ==>
            r == (if express("|" + slot.digits + "|").Ok? then Ok(Replace(statement, t, express("|" + slot.digits + "|").value))
                  else Err(express("|" + slot.digits + "|").error)))
      && (!StartsWith(slot.name, "Reference") && StartsWith(slot.name, "Metric") ==> r == Ok(Replace(statement, t, metric)))
      && (!StartsWith(slot.name, "Reference") && !StartsWith(slot.name, "Metric") ==>
            if Has(slot.name, "Result") || Has(slot.name, "Unit") then r == Ok(statement)
            else r.Ok? <==> Get(fillers, slot.name + ":" + slot.digits).Some?)
  {
    SlotWords();
    SlotHasBraceWord(slot, "Reference");
    assert "{" + "Reference" == "{Reference";
    SlotHasBraceWord(slot, "Metric");
    assert "{" + "Metric" == "{Metric";
    SlotHasWord(slot, "Result");
    SlotHasWord(slot, "Unit");
  }

  /** The slots from the `i`-th on, filled one after the other. */
  function FillNamedFrom(statement: string, slots: seq<SlotMatch>, i: nat, fillers: Dict<string>, metric: string, express: StepText): Result<string>
    decreases |slots| - i
  {
    if i >= |slots| then Ok(statement)
    else
      var next :- FillNamed(statement, slots[i], fillers, metric, express);
      FillNamedFrom(next, slots, i + 1, fillers, metric, express)
  }

  method FillNamedSlots(template: string, slots: seq<SlotMatch>, fillers: Dict<string>, metric: string, express: StepText)
    returns (r: Result<string>)
    ensures r == FillNamedFrom(template, slots, 0, fillers, metric, express)
  {
    var statement := template;
    var i := 0;
    while i < |slots|
      invariant 0 <= i <= |slots|
      invariant FillNamedFrom(template, slots, 0, fillers, metric, express) == FillNamedFrom(statement, slots, i, fillers, metric, express)
      decreases |slots| - i
    {
      var next := FillNamed(statement, slots[i], fillers, metric, express);
      if next.Err? {
        return Err(next.error);
      }
      statement := next.value;
      i := i + 1;
    }
    r := Ok(statement);
  }

  // ---------------------------------------------------------------------------
  // Result and unit slots
  // ---------------------------------------------------------------------------

  /** `result_slots_to_fill`: the slots whose text holds "Result" or "Unit", in order. */
  function ResultSlots(slots: seq<SlotMatch>): (r: seq<SlotMatch>)
    ensures forall k :: 0 <= k < |r| ==> r[k] in slots && (Has(r[k].Text(), "Result") || Has(r[k].Text(), "Unit"))
    ensures forall x :: x in slots && (Has(x.Text(), "Result") || Has(x.Text(), "Unit")) ==> x in r
  {
    if slots == [] then []
    else
      var rest := ResultSlots(slots[1..]);
      assert forall x :: x in slots && x != slots[0] ==> x in slots[1..];
      if Has(slots[0].Text(), "Result") || Has(slots[0].Text(), "Unit") then [slots[0]] + rest else rest
  }

  /** A non-empty run of digits is a number. */
  lemma {:induction false} DigitsHaveValue(s: string)
    requires s != [] && forall k :: 0 <= k < |s| ==> IsDigit(s[k])
    ensures AnalysisEngines.DigitsValue(s).Some?
    decreases |s|
  {
    if |s| > 1 {
      DigitsHaveValue(s[..|s| - 1]);
    }
  }

  /** `int(...)` of the slot's number. */
  function SlotNumber(slot: SlotMatch): (r: Result<nat>)
    ensures slot.WellFormed() ==> r.Ok?
  {
    assert slot.WellFormed() ==> AnalysisEngines.DigitsValue(slot.digits).Some? by {
      if slot.WellFormed() {
        DigitsHaveValue(slot.digits);
      }
    }
    match AnalysisEngines.DigitsValue(slot.digits)
    case None => Err(ValueError("invalid literal for int() with base 10: '" + slot.digits + "'"))
    case Some(n) => Ok(n)
  }

  /**
   * `get_result_filler`, corrected: a lone True or False column says "is"
   * or "is not"; an identifier of an entity with a reference is looked up;
   * any other value is given as it is.
   */
  function ResultFiller(entities: seq<RingEntities.EntityState>, o: Outcome, lookup: ReferenceValues, row: seq<string>, n: nat): Result<string>
  {
    if n >= |row| then Err(IndexError)
    else if |row| == 1 && (row[n] == "True" || row[n] == "False") then Ok(if row[n] == "True" then "is" else "is not")
    else
      match ReferencedField(entities, o, n)
      case Err(e) => Err(e)
      case Ok(Some(ref)) => lookup(ref.0, ref.1, row[n], ref.2)
      case Ok(None) => Ok(row[n])
  }

  /** `get_result_filler` as written: the test of the answer is a test of a non-empty text. */
  function ResultFillerAsWritten(entities: seq<RingEntities.EntityState>, o: Outcome, lookup: ReferenceValues, row: seq<string>, n: nat): Result<string>
  {
    if n >= |row| then Err(IndexError)
    else if |row| == 1 && (row[n] == "True" || row[n] == "False") then Ok(if row[n] != "" then "is" else "is not")
    else
      match ReferencedField(entities, o, n)
      case Err(e) => Err(e)
      case Ok(Some(ref)) => lookup(ref.0, ref.1, row[n], ref.2)
      case Ok(None) => Ok(row[n])
  }

  /** As written, a lone False result still reads "is": "is not" can never come out. */
  lemma ResultFillerAsWrittenSaysIs(entities: seq<RingEntities.EntityState>, o: Outcome, lookup: ReferenceValues, row: seq<string>, n: nat)
    requires ResultFillerAsWritten(entities, o, lookup, row, n).Ok? && |row| == 1 && n == 0
    requires row[0] == "True" || row[0] == "False"
    ensures ResultFillerAsWritten(entities, o, lookup, row, n) == Ok("is")
    ensures row[0] == "False" ==> ResultFillerAsWritten(entities, o, lookup, row, n) != ResultFiller(entities, o, lookup, row, n)
  {
  }

  /** A lone boolean column reads "is" exactly when it is True. */
  lemma ResultFillerBoolean(entities: seq<RingEntities.EntityState>, o: Outcome, lookup: ReferenceValues, row: seq<string>)
    requires |row| == 1 && (row[0] == "True" || row[0] == "False")
    ensures ResultFiller(entities, o, lookup, row, 0) == Ok("is") <==> row[0] == "True"
    ensures ResultFiller(entities, o, lookup, row, 0) == Ok("is not") <==> row[0] == "False"
  {
  }

  /** Outside a lone boolean column, the filler is the value itself unless the column holds referenced identifiers. */
  lemma ResultFillerValue(entities: seq<RingEntities.EntityState>, o: Outcome, lookup: ReferenceValues, row: seq<string>, n: nat)
    requires n < |row| && !(|row| == 1 && (row[n] == "True" || row[n] == "False"))
    requires ReferencedField(entities, o, n) == Ok(None)
    ensures ResultFiller(entities, o, lookup, row, n) == Ok(row[n])
  {
  }

  /** `get_unit_filler`: no unit for referenced identifiers, otherwise the unit of the column, which may be empty. */
  function UnitFiller(entities: seq<RingEntities.EntityState>, o: Outcome, n: nat): (r: Result<string>)
    ensures r.Ok? ==> ReferencedField(entities, o, n).Ok?
    ensures r.Ok? && ReferencedField(entities, o, n).value.Some? ==> r.value == ""
    ensures r.Ok? && ReferencedField(entities, o, n).value.None? ==> n < |o.units| && |o.units[n]| >= 2 && r.value == o.units[n][1]
  {
    match ReferencedField(entities, o, n)
    case Err(e) => Err(e)
    case Ok(Some(_)) => Ok("")
    case Ok(None) =>
      if n >= |o.units| || |o.units[n]| < 2 then Err(IndexError)
      else if |o.units[n][1]| > 0 then Ok(o.units[n][1])
      else Ok("")
  }

  /** One result or unit slot of a row filled in the segment. */
  function FillResultSlot(segment: string, slot: SlotMatch, entities: seq<RingEntities.EntityState>, o: Outcome, lookup: ReferenceValues, row: seq<string>): Result<string>
  {
    var t := slot.Text();
    var n :- SlotNumber(slot);
    if Has(t, "Result") then
      var filler :- ResultFiller(entities, o, lookup, row, n);
      Ok(Replace(segment, t, filler))
    else if Has(t, "Unit") then
      var filler :- UnitFiller(entities, o, n);
      Ok(Replace(segment, t, filler))
    else Ok(segment)
  }

  /** The result and unit slots from the `i`-th on, filled one after the other with a row's values. */
  function FillResultSlots(segment: string, slots: seq<SlotMatch>, i: nat, entities: seq<RingEntities.EntityState>, o: Outcome, lookup: ReferenceValues, row: seq<string>): Result<string>
    decreases |slots| - i
  {
    if i >= |slots| then Ok(segment)
    else
      var next :- FillResultSlot(segment, slots[i], entities, o, lookup, row);
      FillResultSlots(next, slots, i + 1, entities, o, lookup, row)
  }

  method FillRow(segment: string, slots: seq<SlotMatch>, entities: seq<RingEntities.EntityState>, o: Outcome, lookup: ReferenceValues, row: seq<string>)
    returns (r: Result<string>)
    ensures r == FillResultSlots(segment, slots, 0, entities, o, lookup, row)
  {
    var filled := segment;
    var i := 0;
    while i < |slots|
      invariant 0 <= i <= |slots|
      invariant FillResultSlots(segment, slots, 0, entities, o, lookup, row) == FillResultSlots(filled, slots, i, entities, o, lookup, row)
      decreases |slots| - i
    {
      var next := FillResultSlot(filled, slots[i], entities, o, lookup, row);
      if next.Err? {
        return Err(next.error);
      }
      filled := next.value;
      i := i + 1;
    }
    r := Ok(filled);
  }

  // ---------------------------------------------------------------------------
  // The segment between the first pair of repeat tags
  // ---------------------------------------------------------------------------

  /** Whether the text has no `c` from position `i` on. */
  predicate LacksFrom(s: string, c: char, i: nat)
  {
    forall k :: i <= k < |s| ==> s[k] != c
  }

  /**
   * The end of the shortest segment that starts before position `k` and
   * runs on over non-newline characters up to a "</repeat>".
   */
  function CloseAfter(s: string, k: nat): (r: Option<nat>)
    ensures r.Some? ==> k < r.value <= |s| && OccursAt(s, "</repeat>", r.value)
    ensures r.Some? ==> forall m :: k <= m < r.value ==> s[m] != '\n'
    decreases |s| - k
  {
    if k >= |s| || s[k] == '\n' then None
    else if OccursAt(s, "</repeat>", k + 1) then Some(k + 1)
    else CloseAfter(s, k + 1)
  }

  /** The first "<repeat>" from position `i` on that a non-empty segment and "</repeat>" follow, and its segment. */
  function RepeatFrom(s: string, i: nat): (r: Result<string>)
    ensures r.Err? ==> r.error == IndexError
    decreases |s| - i
  {
    if i >= |s| then Err(IndexError)
    else if OccursAt(s, "<repeat>", i) && CloseAfter(s, i + 8).Some? then Ok(s[i + 8..CloseAfter(s, i + 8).value])
    else RepeatFrom(s, i + 1)
  }

  /** The segment between the first pair of repeat tags; IndexError when there is none. */
  function RepeatSegment(s: string): (r: Result<string>)
    ensures r.Ok? ==> r.value != "" && forall k :: 0 <= k < |r.value| ==> r.value[k] != '\n'
  {
    RepeatSegmentShape(s, 0);
    RepeatFrom(s, 0)
  }

  lemma {:induction false} RepeatSegmentShape(s: string, i: nat)
    ensures RepeatFrom(s, i).Ok? ==> RepeatFrom(s, i).value != "" && forall k :: 0 <= k < |RepeatFrom(s, i).value| ==> RepeatFrom(s, i).value[k] != '\n'
    decreases |s| - i
  {
    if i < |s| && !(OccursAt(s, "<repeat>", i) && CloseAfter(s, i + 8).Some?) {
      RepeatSegmentShape(s, i + 1);
    }
  }

  /** A segment without '<' or a newline is closed by the "</repeat>" right after it. */
  lemma {:induction false} CloseAfterSegment(s: string, k: nat, end: nat)
    requires k < end <= |s| && OccursAt(s, "</repeat>", end)
    requires forall m :: k <= m < end ==> s[m] != '<' && s[m] != '\n'
    ensures CloseAfter(s, k) == Some(end)
    decreases end - k
  {
    assert s[k] != '\n';
    if k + 1 < end {
      assert s[k + 1] != "</repeat>"[0];
      NotFirstChar(s, "</repeat>", k + 1);
      CloseAfterSegment(s, k + 1, end);
      assert CloseAfter(s, k) == CloseAfter(s, k + 1);
    }
  }

  /** No "<repeat>" starts before the first '<'. */
  lemma {:induction false} RepeatFromSkips(s: string, i: nat, j: nat)
    requires i <= j < |s| && forall m :: i <= m < j ==> s[m] != '<'
    ensures RepeatFrom(s, i) == RepeatFrom(s, j)
    decreases j - i
  {
    if i < j {
      NotFirstChar(s, "<repeat>", i);
      RepeatFromSkips(s, i + 1, j);
    }
  }

  /** The tagged segment of a statement whose only '<' are those of its tags. */
  lemma RepeatSegmentOf(pre: string, x: string, post: string)
    requires LacksFrom(pre, '<', 0) && x != "" && LacksFrom(x, '<', 0) && LacksFrom(x, '\n', 0)
    ensures RepeatSegment(pre + "<repeat>" + x + "</repeat>" + post) == Ok(x)
  {
    var s := pre + "<repeat>" + x + "</repeat>" + post;
    var i, end := |pre|, |pre| + 8 + |x|;
    assert s[i..i + 8] == "<repeat>";
    assert s[end..end + 9] == "</repeat>";
    assert forall m :: 0 <= m < i ==> s[m] == pre[m];
    assert forall m :: i + 8 <= m < end ==> s[m] == x[m - i - 8];
    CloseAfterSegment(s, i + 8, end);
    RepeatFromSkips(s, 0, i);
    assert s[i + 8..end] == x;
  }

  /** Replacing a pattern between texts that lack its first character replaces just it. */
  lemma ReplaceLacking(pre: string, pat: string, post: string, rep: string)
    requires |pat| > 0 && LacksFrom(pre, pat[0], 0) && LacksFrom(post, pat[0], 0)
    ensures Replace(pre + pat + post, pat, rep) == pre + rep + post
  {
    var s := pre + (pat + post);
    assert pre + pat + post == s;
    forall j | 0 <= j < |pre| ensures !OccursAt(s, pat, j) {
      NotFirstChar(s, pat, j);
    }
    ReplaceSkip(pre, pat + post, pat, rep);
    ReplaceAtStart(pat, post, rep);
    forall j | 0 <= j < |post| ensures !OccursAt(post + "", pat, j) {
      NotFirstChar(post + "", pat, j);
    }
    ReplaceSkip(post, "", pat, rep);
    assert post + "" == post;
    assert Replace("", pat, rep) == "";
    assert pre + (rep + post) == pre + rep + post;
  }

  /** The segment of row `j` with its result and unit slots filled. */
  function RowSegments(segment: string, slots: seq<SlotMatch>, entities: seq<RingEntities.EntityState>, o: Outcome, lookup: ReferenceValues): nat -> Result<string>
  {
    (j: nat) => if j < |o.rows| then FillResultSlots(segment, slots, 0, entities, o, lookup, o.rows[j]) else Err(IndexError)
  }

  /** Several rows: the tagged segment, tags included, becomes the filled segments of all rows in an Oxford-comma list. */
  function Expanded(statement: string, slots: seq<SlotMatch>, entities: seq<RingEntities.EntityState>, o: Outcome, lookup: ReferenceValues): Result<string>
  {
    var segment :- RepeatSegment(statement);
    var segments :- EachFrom(|o.rows|, RowSegments(segment, slots, entities, o, lookup), 0);
    Ok(Replace(statement, "<repeat>" + segment + "</repeat>", Oxfordcomma(segments)))
  }

  /** The tagged segment, tags included, is the only text replaced. */
  lemma ReplaceTagged(pre: string, x: string, post: string, rep: string)
    requires LacksFrom(pre, '<', 0) && LacksFrom(post, '<', 0)
    ensures Replace(pre + "<repeat>" + x + "</repeat>" + post, "<repeat>" + x + "</repeat>", rep) == pre + rep + post
  {
    var tagged := "<repeat>" + x + "</repeat>";
    assert pre + "<repeat>" + x + "</repeat>" + post == pre + tagged + post;
    assert tagged[0] == '<';
    ReplaceLacking(pre, tagged, post, rep);
  }

  /**
   * In a statement whose only '<' are those of its repeat tags, the tagged
   * segment is replaced by one filled segment per row, in row order.
   */
  lemma ExpandedShape(pre: string, x: string, post: string, slots: seq<SlotMatch>, entities: seq<RingEntities.EntityState>, o: Outcome, lookup: ReferenceValues)
    requires LacksFrom(pre, '<', 0) && LacksFrom(post, '<', 0)
    requires x != "" && LacksFrom(x, '<', 0) && LacksFrom(x, '\n', 0)
    ensures var r := Expanded(pre + "<repeat>" + x + "</repeat>" + post, slots, entities, o, lookup);
      var segments := EachFrom(|o.rows|, RowSegments(x, slots, entities, o, lookup), 0);
      && (r.Ok? <==> segments.Ok?)
      && (r.Ok? ==> r.value == pre + Oxfordcomma(segments.value) + post)
  {
    var s := pre + "<repeat>" + x + "</repeat>" + post;
    assert RepeatSegment(s) == Ok(x) by {
      RepeatSegmentOf(pre, x, post);
    }
    var segments := EachFrom(|o.rows|, RowSegments(x, slots, entities, o, lookup), 0);
    if segments.Ok? {
      assert Replace(s, "<repeat>" + x + "</repeat>", Oxfordcomma(segments.value)) == pre + Oxfordcomma(segments.value) + post by {
        ReplaceTagged(pre, x, post, Oxfordcomma(segments.value));
      }
    }
  }

  /** The segments are one per row, each the tagged segment filled with that row. */
  lemma ExpandedRows(x: string, slots: seq<SlotMatch>, entities: seq<RingEntities.EntityState>, o: Outcome, lookup: ReferenceValues)
    ensures var segments := EachFrom(|o.rows|, RowSegments(x, slots, entities, o, lookup), 0);
      segments.Ok? ==>
        && |segments.value| == |o.rows|
        && forall j :: 0 <= j < |o.rows| ==> FillResultSlots(x, slots, 0, entities, o, lookup, o.rows[j]) == Ok(segments.value[j])
  {
    var item := RowSegments(x, slots, entities, o, lookup);
    EachFromMeaning(|o.rows|, item, 0);
    var segments := EachFrom(|o.rows|, item, 0);
    if segments.Ok? {
      forall j | 0 <= j < |o.rows| ensures FillResultSlots(x, slots, 0, entities, o, lookup, o.rows[j]) == Ok(segments.value[j]) {
        assert item(j) == FillResultSlots(x, slots, 0, entities, o, lookup, o.rows[j]);
      }
    }
  }

  /** A segment with one result or unit slot between brace-free texts has that slot, and nothing else, filled. */
  lemma ResultSlotFilled(pre: string, slot: SlotMatch, post: string, entities: seq<RingEntities.EntityState>, o: Outcome, lookup: ReferenceValues, row: seq<string>)
    requires slot.WellFormed() && BraceFree(pre) && BraceFree(post)
    requires Has(slot.Text(), "Result") || Has(slot.Text(), "Unit")
    ensures var n := SlotNumber(slot).value;
      var filler := if Has(slot.Text(), "Result") then ResultFiller(entities, o, lookup, row, n) else UnitFiller(entities, o, n);
      var r := FillResultSlots(pre + slot.Text() + post, [slot], 0, entities, o, lookup, row);
      && (r.Ok? <==> filler.Ok?)
      && (r.Ok? ==> r.value == pre + filler.value + post)
  {
    var n := SlotNumber(slot).value;
    var filler := if Has(slot.Text(), "Result") then ResultFiller(entities, o, lookup, row, n) else UnitFiller(entities, o, n);
    if filler.Ok? {
      assert slot.Text()[0] == '{';
      ReplaceBetween(pre, slot.Text(), post, filler.value);
    }
  }

  // ---------------------------------------------------------------------------
  // Filters and the whole statement
  // ---------------------------------------------------------------------------

  predicate Terminal(c: char)
  {
    c == '.' || c == '?' || c == '!'
  }

  /**
   * The filter phrase, when the plan has filter steps, goes before the
   * statement's final '.', '?' or '!' as "for <phrase>", or is added at the
   * end with a full stop when there is none.
   */
  function AddFilter(statement: string, filter: Option<string>): (r: string)
    ensures filter.None? ==> r == statement
    ensures filter.Some? ==> |r| > 0 && Terminal(r[|r| - 1]) && EndsWith(r[..|r| - 1], " for " + filter.value)
    ensures filter.Some? && |statement| > 0 && Terminal(statement[|statement| - 1]) ==>
      r[|r| - 1] == statement[|statement| - 1] && StartsWith(r, statement[..|statement| - 1])
    ensures filter.Some? && (|statement| == 0 || !Terminal(statement[|statement| - 1])) ==>
      r[|r| - 1] == '.' && StartsWith(r, statement)
  {
    match filter
    case None => statement
    case Some(phrase) =>
      var f := "for " + phrase;
      if |statement| > 0 && Terminal(statement[|statement| - 1]) then
        var body := statement[..|statement| - 1] + " " + f;
        assert (body + [statement[|statement| - 1]])[..|body|] == body;
        body + [statement[|statement| - 1]]
      else
        var body := statement + " " + f;
        assert (body + ".")[..|body|] == body;
        body + "."
  }

  /**
   * The result and unit slots filled: with several rows, the tagged segment
   * repeated once per row; otherwise with the first row, which must exist.
   */
  function ResultsFilled(statement: string, slots: seq<SlotMatch>, length: int, entities: seq<RingEntities.EntityState>, o: Outcome, lookup: ReferenceValues): Result<string>
  {
    if length > 1 then Expanded(statement, slots, entities, o, lookup)
    else if |o.rows| == 0 then Err(IndexError)
    else FillResultSlots(statement, slots, 0, entities, o, lookup, o.rows[0])
  }

  /** The template named `name` in the base plan templates. */
  function StatementTemplate(templates: Dict<Dict<string>>, name: string): (r: Result<string>)
    ensures !HasKey(templates, name) ==> r == Err(KeyError(name))
    ensures HasKey(templates, name) && HasKey(Get(templates, name).value, "statement_template") ==> r.Ok?
  {
    match Get(templates, name)
    case None => Err(KeyError(name))
    case Some(entry) =>
      match Get(entry, "statement_template")
      case None => Err(KeyError("statement_template"))
      case Some(template) => Ok(template)
  }

  /**
   * `generate_statement`: the named slots of the template filled, then the
   * result and unit slots, then the filter phrase, then the first letter
   * capitalised.
   */
  function Generated(templates: Dict<Dict<string>>, name: string, length: int, o: Outcome, fillers: Dict<string>, metric: string,
                     express: StepText, entities: seq<RingEntities.EntityState>, lookup: ReferenceValues, filter: Option<string>): (r: Result<string>)
    ensures !HasKey(templates, name) ==> r == Err(KeyError(name))
    ensures r.Ok? ==> r.value != "" && r.value[0] == ToUpperChar(r.value[0])
    ensures r.Ok? && filter.Some? ==> Terminal(r.value[|r.value| - 1])
  {
    var template :- StatementTemplate(templates, name);
    var slots := SlotsIn(template);
    var named :- FillNamedFrom(template, slots, 0, fillers, metric, express);
    var filled :- ResultsFilled(named, ResultSlots(slots), length, entities, o, lookup);
    CapitalizeFirstOnly(AddFilter(filled, filter))
  }

  method GenerateStatement(templates: Dict<Dict<string>>, name: string, length: int, o: Outcome, fillers: Dict<string>, metric: string,
                           express: StepText, entities: seq<RingEntities.EntityState>, lookup: ReferenceValues, filter: Option<string>)
    returns (r: Result<string>)
    ensures r == Generated(templates, name, length, o, fillers, metric, express, entities, lookup, filter)
  {
    var template := StatementTemplate(templates, name);
    if template.Err? {
      return Err(template.error);
    }
    var slots := SlotsIn(template.value);
    var named := FillNamedSlots(template.value, slots, fillers, metric, express);
    if named.Err? {
      return Err(named.error);
    }
    var rslots := ResultSlots(slots);
    var statement := named.value;
    if length > 1 {
      var segment := RepeatSegment(statement);
      if segment.Err? {
        return Err(segment.error);
      }
      var item := RowSegments(segment.value, rslots, entities, o, lookup);
      var segments := [];
      var j := 0;
      ThenEmpty(EachFrom(|o.rows|, item, 0));
      while j < |o.rows|
        invariant 0 <= j <= |o.rows|
        invariant EachFrom(|o.rows|, item, 0) == Then(segments, EachFrom(|o.rows|, item, j))
        decreases |o.rows| - j
      {
        var filled := FillRow(segment.value, rslots, entities, o, lookup, o.rows[j]);
        if filled.Err? {
          return Err(filled.error);
        }
        ThenConcat(segments, [filled.value], EachFrom(|o.rows|, item, j + 1));
        segments := segments + [filled.value];
        j := j + 1;
      }
      assert segments + [] == segments;
      statement := Replace(statement, "<repeat>" + segment.value + "</repeat>", Oxfordcomma(segments));
    } else {
      if |o.rows| == 0 {
        return Err(IndexError);
      }
      var filled := FillRow(statement, rslots, entities, o, lookup, o.rows[0]);
      if filled.Err? {
        return Err(filled.error);
      }
      statement := filled.value;
    }
    r := CapitalizeFirstOnly(AddFilter(statement, filter));
  }
}
