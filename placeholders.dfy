/**
 * Filling the positional placeholders `{i}` of an operation's language
 * template with `str.replace`, as the step, question and statement
 * generators of `core/Planning` do: what a replacement does to a rendered
 * template, and the templates that come out.
 */
module Placeholders {

  import opened Wrappers
  import opened Chars
  import opened Text
  import opened Operations

  /** A text no placeholder can start in. */
  predicate BraceFree(s: string)
  {
    forall k :: 0 <= k < |s| ==> s[k] != '{'
  }

  /** `f"{{{i}}}"`: the placeholder for argument `i`. */
  function SlotToken(i: nat): (tok: string)
    ensures tok == RenderPiece(Slot(i))
    ensures |tok| >= 3 && tok[0] == '{'
  {
    "{" + NatToString(i) + "}"
  }

  // ---------------------------------------------------------------------------
  // str.replace one step at a time
  // ---------------------------------------------------------------------------

  /** Replacing a pattern skips a prefix in which no occurrence starts. */
  lemma {:induction false} ReplaceSkip(x: string, rest: string, pat: string, rep: string)
    requires |pat| > 0 && forall j :: 0 <= j < |x| ==> !OccursAt(x + rest, pat, j)
    ensures Replace(x + rest, pat, rep) == x + Replace(rest, pat, rep)
    decreases |x|
  {
    var s := x + rest;
    if x == "" {
      assert s == rest;
    } else if |s| < |pat| {
      assert Replace(s, pat, rep) == s;
      assert Replace(rest, pat, rep) == rest;
    } else {
      assert !OccursAt(s, pat, 0);
      assert s[..|pat|] != pat by { assert s[0..|pat|] == s[..|pat|]; }
      var x1 := x[1..];
      assert s[1..] == x1 + rest;
      forall j | 0 <= j < |x1|
        ensures !OccursAt(x1 + rest, pat, j)
      {
        if OccursAt(x1 + rest, pat, j) {
          assert s[j + 1..j + 1 + |pat|] == (x1 + rest)[j..j + |pat|];
          assert OccursAt(s, pat, j + 1);
        }
      }
      ReplaceSkip(x1, rest, pat, rep);
      assert Replace(s, pat, rep) == [s[0]] + Replace(x1 + rest, pat, rep);
      assert x == [s[0]] + x1;
    }
  }

  /** A brace-free prefix is skipped by the replacement of a placeholder. */
  lemma ReplaceBraceFreePrefix(x: string, rest: string, pat: string, rep: string)
    requires |pat| > 0 && pat[0] == '{' && BraceFree(x)
    ensures Replace(x + rest, pat, rep) == x + Replace(rest, pat, rep)
  {
    forall j | 0 <= j < |x|
      ensures !OccursAt(x + rest, pat, j)
    {
      NotFirstChar(x + rest, pat, j);
    }
    ReplaceSkip(x, rest, pat, rep);
  }

  /** A brace-free text is left as it is. */
  lemma ReplaceBraceFree(x: string, pat: string, rep: string)
    requires |pat| > 0 && pat[0] == '{' && BraceFree(x)
    ensures Replace(x, pat, rep) == x
  {
    ReplaceBraceFreePrefix(x, "", pat, rep);
    assert x + "" == x;
    assert Replace("", pat, rep) == "";
  }

  /** A string that starts with the pattern has it replaced there. */
  lemma ReplaceAtStart(pat: string, rest: string, rep: string)
    requires |pat| > 0
    ensures Replace(pat + rest, pat, rep) == rep + Replace(rest, pat, rep)
  {
    var s := pat + rest;
    assert s[..|pat|] == pat;
    assert s[|pat|..] == rest;
  }

  /** A placeholder between brace-free texts is the only thing replaced. */
  lemma ReplaceBetween(pre: string, pat: string, post: string, rep: string)
    requires |pat| > 0 && pat[0] == '{' && BraceFree(pre) && BraceFree(post)
    ensures Replace(pre + pat + post, pat, rep) == pre + rep + post
  {
    assert pre + pat + post == pre + (pat + post);
    ReplaceBraceFreePrefix(pre, pat + post, pat, rep);
    ReplaceAtStart(pat, post, rep);
    ReplaceBraceFree(post, pat, rep);
    assert pre + (rep + post) == pre + rep + post;
  }

  // ---------------------------------------------------------------------------
  // Placeholders do not match one another
  // ---------------------------------------------------------------------------

  /** `{target}` never starts with a placeholder `{i}`: its second character is a letter. */
  lemma TargetNotToken(rest: string, i: nat)
    ensures !OccursAt(RenderPiece(Target) + rest, SlotToken(i), 0)
  {
    var s, pat := RenderPiece(Target) + rest, SlotToken(i);
    assert s[1] == 't';
    assert pat[1] == NatToString(i)[0];
  }

  /** `{j}` starts with a placeholder `{i}` only when i and j are the same number. */
  lemma SlotTokenAt(j: nat, rest: string, i: nat)
    ensures OccursAt(RenderPiece(Slot(j)) + rest, SlotToken(i), 0) ==> i == j
  {
    var s, pat := RenderPiece(Slot(j)) + rest, SlotToken(i);
    var a, b := NatToString(j), NatToString(i);
    if |b| < |a| {
      assert s[|b| + 1] == a[|b|] && pat[|b| + 1] == '}';
    } else if |b| > |a| {
      assert s[|a| + 1] == '}' && pat[|a| + 1] == b[|a|];
    } else if OccursAt(s, pat, 0) {
      assert s[..|pat|] == RenderPiece(Slot(j));
      assert a == RenderPiece(Slot(j))[1..|a| + 1] == b;
      NatToStringInjective(i, j);
    }
  }

  /** The placeholder `{i}` only starts a rendered piece that is `{i}` itself. */
  lemma TokenAtStart(p: Piece, rest: string, i: nat)
    requires !p.Lit? && OccursAt(RenderPiece(p) + rest, SlotToken(i), 0)
    ensures p == Slot(i)
  {
    match p
    case Target => TargetNotToken(rest, i);
    case Slot(j) => SlotTokenAt(j, rest, i);
  }


  /** No placeholder starts inside a rendered placeholder. */
  lemma TokenInside(p: Piece, rest: string, pat: string, j: nat)
    requires !p.Lit? && |pat| > 0 && pat[0] == '{' && 0 < j < |RenderPiece(p)|
    ensures !OccursAt(RenderPiece(p) + rest, pat, j)
  {
    var s := RenderPiece(p) + rest;
    assert s[j] == RenderPiece(p)[j];
    match p
    case Target =>
    case Slot(k) =>
      var a := NatToString(k);
      assert j <= |a| ==> RenderPiece(p)[j] == a[j - 1];
    NotFirstChar(s, pat, j);
  }

  /** Replacing `{i}` in a rendered piece other than `{i}` leaves the piece. */
  lemma ReplaceOtherPiece(p: Piece, rest: string, i: nat, rep: string)
    requires p != Slot(i) && (p.Lit? ==> BraceFree(p.text))
    ensures Replace(RenderPiece(p) + rest, SlotToken(i), rep) == RenderPiece(p) + Replace(rest, SlotToken(i), rep)
  {
    var pat := SlotToken(i);
    if p.Lit? {
      ReplaceBraceFreePrefix(p.text, rest, pat, rep);
    } else {
      forall j | 0 <= j < |RenderPiece(p)|
        ensures !OccursAt(RenderPiece(p) + rest, pat, j)
      {
        if j == 0 {
          if OccursAt(RenderPiece(p) + rest, pat, 0) {
            TokenAtStart(p, rest, i);
          }
        } else {
          TokenInside(p, rest, pat, j);
        }
      }
      ReplaceSkip(RenderPiece(p), rest, pat, rep);
    }
  }

  // ---------------------------------------------------------------------------
  // Filling a template
  // ---------------------------------------------------------------------------

  /** A template whose literal text holds no brace: the shape of every template of the registry. */
  predicate Plain(t: Template)
  {
    forall k :: 0 <= k < |t| ==> t[k].Lit? ==> BraceFree(t[k].text)
  }

  /** The template with every `{i}` made the literal `v`. */
  function FillSlot(t: Template, i: nat, v: string): (r: Template)
    ensures |r| == |t|
    ensures forall k :: 0 <= k < |t| ==> r[k] == if t[k] == Slot(i) then Lit(v) else t[k]
  {
    if t == [] then [] else [if t[0] == Slot(i) then Lit(v) else t[0]] + FillSlot(t[1..], i, v)
  }

  /**
   * `Render(t).replace("{i}", v)` is the rendering of the template with
   * its `{i}` pieces filled by `v`, and the filled template is as plain as
   * the original when `v` is brace-free.
   */
  lemma {:induction false} ReplaceSlot(t: Template, i: nat, v: string)
    requires Plain(t) && BraceFree(v)
    ensures Replace(Render(t), SlotToken(i), v) == Render(FillSlot(t, i, v))
    ensures Plain(FillSlot(t, i, v))
  {
    if t == [] {
      assert Replace("", SlotToken(i), v) == "";
    } else {
      var rest := t[1..];
      assert Plain(rest) by {
        forall k | 0 <= k < |rest| && rest[k].Lit? ensures BraceFree(rest[k].text) {
          assert rest[k] == t[k + 1];
        }
      }
      ReplaceSlot(rest, i, v);
      var tail := Render(rest);
      assert Render(t) == RenderPiece(t[0]) + tail;
      var filled := FillSlot(t, i, v);
      assert filled == [filled[0]] + FillSlot(rest, i, v);
      assert Render(filled) == RenderPiece(filled[0]) + Render(FillSlot(rest, i, v));
      if t[0] == Slot(i) {
        ReplaceAtStart(SlotToken(i), tail, v);
      } else {
        assert t[0].Lit? ==> BraceFree(t[0].text);
        ReplaceOtherPiece(t[0], tail, i, v);
      }
    }
  }

  /** Filling leaves no `{i}` piece behind. */
  lemma FillSlotRemoves(t: Template, i: nat, v: string)
    ensures i !in Slots(FillSlot(t, i, v))
    ensures Slots(FillSlot(t, i, v)) == Slots(t) - {i}
  {
    var r := FillSlot(t, i, v);
    forall n | n in Slots(t) - {i}
      ensures n in Slots(r)
    {
      var k :| 0 <= k < |t| && t[k].Slot? && t[k].index == n;
      assert r[k] == t[k];
    }
  }

  /** `statement.replace("{i}", vals[i])` for `i` from `i` up to the last value, in that order. */
  function ReplaceSlots(statement: string, vals: seq<string>, i: nat): string
    decreases |vals| - i
  {
    if i >= |vals| then statement else ReplaceSlots(Replace(statement, SlotToken(i), vals[i]), vals, i + 1)
  }

  /** The template with its pieces `{i}`, `{i+1}`, … filled by the values. */
  function FillSlots(t: Template, vals: seq<string>, i: nat): Template
    decreases |vals| - i
  {
    if i >= |vals| then t else FillSlots(FillSlot(t, i, vals[i]), vals, i + 1)
  }

  /**
   * Replacing the placeholders one after another in a rendered plain
   * template renders the filled template, provided no value brings in a
   * brace of its own.
   */
  lemma {:induction false} ReplaceSlotsRender(t: Template, vals: seq<string>, i: nat)
    requires Plain(t) && forall k :: i <= k < |vals| ==> BraceFree(vals[k])
    ensures ReplaceSlots(Render(t), vals, i) == Render(FillSlots(t, vals, i))
    decreases |vals| - i
  {
    if i < |vals| {
      ReplaceSlot(t, i, vals[i]);
      ReplaceSlotsRender(FillSlot(t, i, vals[i]), vals, i + 1);
    }
  }
}
