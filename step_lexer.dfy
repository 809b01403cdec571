/**
 * How `AnalysisPlanParser.create_analysis_steps` cuts a step text into
 * words: every parenthesis is deleted (`re.sub(r'[()]', '', v)`), then the
 * rest is split the way `shlex.split` splits it, on whitespace, with a
 * quoted part kept in one word and its quotes dropped.
 */
module StepLexer {

  import opened Wrappers
  import opened Text

  predicate IsParen(c: char) { c == '(' || c == ')' }

  predicate ParenFree(s: string)
  {
    forall k :: 0 <= k < |s| ==> !IsParen(s[k])
  }

  /** `re.sub(r'[()]', '', s)`. */
  function RemoveParens(s: string): (r: string)
    ensures ParenFree(r)
    ensures forall k :: 0 <= k < |r| ==> r[k] in s
  {
    if s == [] then []
    else (if IsParen(s[0]) then [] else [s[0]]) + RemoveParens(s[1..])
  }

  lemma {:induction false} RemoveParensConcat(a: string, b: string)
    ensures RemoveParens(a + b) == RemoveParens(a) + RemoveParens(b)
  {
    if a == [] {
      assert a + b == b;
    } else {
      assert (a + b)[0] == a[0] && (a + b)[1..] == a[1..] + b;
      RemoveParensConcat(a[1..], b);
    }
  }

  /** Text without parentheses is left as it is. */
  lemma {:induction false} RemoveParensFixes(s: string)
    requires ParenFree(s)
    ensures RemoveParens(s) == s
  {
    if s != [] {
      RemoveParensFixes(s[1..]);
    }
  }

  /** The characters `shlex` splits on. */
  predicate IsShlexSpace(c: char) { c == ' ' || c == '\t' || c == '\r' || c == '\n' }

  predicate IsQuote(c: char) { c == '"' || c == '\'' }

  /**
   * The lexer's state: the words finished so far, the word being read (a
   * word can be empty when it is an empty quoted part), and the quote
   * character that is still open.
   */
  datatype Lexer = Lexer(done: seq<string>, cur: Option<string>, quote: Option<char>)

  const Start := Lexer([], None, None)

  /** One character through the lexer. */
  function Feed(st: Lexer, c: char): Lexer
  {
    match st.quote
    case Some(q) =>
      if c == q then st.(quote := None) else st.(cur := Some(st.cur.GetOr("") + [c]))
    case None =>
      if IsShlexSpace(c) then
        if st.cur.Some? then Lexer(st.done + [st.cur.value], None, None) else st
      else if IsQuote(c) then
        Lexer(st.done, Some(st.cur.GetOr("")), Some(c))
      else
        st.(cur := Some(st.cur.GetOr("") + [c]))
  }

  function Run(st: Lexer, s: string): Lexer
    decreases |s|
  {
    if s == [] then st else Run(Feed(st, s[0]), s[1..])
  }

  /** `shlex.split(s)`; a quote left open raises ValueError. */
  function ShlexSplit(s: string): (r: Result<seq<string>>)
  {
    var st := Run(Start, s);
    if st.quote.Some? then Err(ValueError("No closing quotation"))
    else Ok(st.done + if st.cur.Some? then [st.cur.value] else [])
  }

  lemma {:induction false} RunConcat(st: Lexer, a: string, b: string)
    ensures Run(st, a + b) == Run(Run(st, a), b)
    decreases |a|
  {
    if a == [] {
      assert a + b == b;
    } else {
      assert (a + b)[0] == a[0] && (a + b)[1..] == a[1..] + b;
      RunConcat(Feed(st, a[0]), a[1..], b);
    }
  }

  /** Every character of a lexer state comes from `s`. */
  predicate From(st: Lexer, s: string)
  {
    (forall w, k :: w in st.done && 0 <= k < |w| ==> w[k] in s)
    && (st.cur.Some? ==> forall k :: 0 <= k < |st.cur.value| ==> st.cur.value[k] in s)
  }

  lemma {:induction false} RunFrom(st: Lexer, s: string, all: string)
    requires From(st, all)
    requires forall k :: 0 <= k < |s| ==> s[k] in all
    ensures From(Run(st, s), all)
    decreases |s|
  {
    if s != [] {
      var c := s[0];
      var next := Feed(st, c);
      assert From(next, all) by {
        if st.cur.Some? {
          assert forall k :: 0 <= k < |st.cur.value + [c]| ==> (st.cur.value + [c])[k] in all;
        }
        assert forall k :: 0 <= k < |[c]| ==> [c][k] in all;
        assert forall k :: 0 <= k < |"" + [c]| ==> ("" + [c])[k] in all;
      }
      RunFrom(next, s[1..], all);
    }
  }

  /** Every character of every word is a character of the text. */
  lemma SplitFromText(s: string)
    ensures ShlexSplit(s).Ok? ==> forall w, k :: w in ShlexSplit(s).value && 0 <= k < |w| ==> w[k] in s
  {
    RunFrom(Start, s, s);
  }

  /** A word that needs no quoting: not empty, no whitespace, quote or parenthesis. */
  predicate Plain(t: string)
  {
    |t| > 0 && forall k :: 0 <= k < |t| ==> !IsShlexSpace(t[k]) && !IsQuote(t[k]) && !IsParen(t[k])
  }

  lemma {:induction false} RunPlain(d: seq<string>, cur: Option<string>, t: string)
    requires Plain(t)
    ensures Run(Lexer(d, cur, None), t) == Lexer(d, Some(cur.GetOr("") + t), None)
    decreases |t|
  {
    var next := Feed(Lexer(d, cur, None), t[0]);
    assert next == Lexer(d, Some(cur.GetOr("") + [t[0]]), None);
    if |t| > 1 {
      RunPlain(d, Some(cur.GetOr("") + [t[0]]), t[1..]);
      assert cur.GetOr("") + [t[0]] + t[1..] == cur.GetOr("") + t;
    } else {
      assert t == [t[0]];
    }
  }

  /** Plain words joined by single spaces lex back into those words. */
  lemma {:induction false} RunJoin(d: seq<string>, ts: seq<string>)
    requires |ts| >= 1 && forall i :: 0 <= i < |ts| ==> Plain(ts[i])
    ensures Run(Lexer(d, None, None), Join(" ", ts)) == Lexer(d + ts[..|ts| - 1], Some(ts[|ts| - 1]), None)
    decreases |ts|
  {
    RunPlain(d, None, ts[0]);
    if |ts| > 1 {
      var rest := Join(" ", ts[1..]);
      RunConcat(Lexer(d, None, None), ts[0], " " + rest);
      RunConcat(Lexer(d, Some(ts[0]), None), " ", rest);
      assert Run(Lexer(d, Some(ts[0]), None), " ") == Lexer(d + [ts[0]], None, None);
      RunJoin(d + [ts[0]], ts[1..]);
      assert d + [ts[0]] + ts[1..][..|ts[1..]| - 1] == d + ts[..|ts| - 1];
      assert ts[1..][|ts[1..]| - 1] == ts[|ts| - 1];
      assert Join(" ", ts) == ts[0] + (" " + rest);
      assert Run(Lexer(d, None, None), ts[0]) == Lexer(d, Some(ts[0]), None) by {
        assert None.GetOr("") + ts[0] == ts[0];
      }
      assert Run(Lexer(d, None, None), Join(" ", ts)) == Run(Lexer(d + [ts[0]], None, None), rest);
    } else {
      assert Join(" ", ts) == ts[0];
      assert d + ts[..0] == d;
      assert None.GetOr("") + ts[0] == ts[0];
    }
  }

  /** `shlex.split` of a plain word, a space and plain words joined by spaces gives the words back. */
  lemma SplitWords(w: string, ws: seq<string>)
    requires Plain(w) && forall i :: 0 <= i < |ws| ==> Plain(ws[i])
    ensures ShlexSplit(w + " " + Join(" ", ws)) == Ok([w] + ws)
  {
    var st := RunWords(w, ws);
    SplitOfState(w + " " + Join(" ", ws), st);
    WordsOfState(w, ws, st);
  }

  lemma WordsOfState(w: string, ws: seq<string>, st: Lexer)
    requires ws == [] ==> st == Lexer([w], None, None)
    requires ws != [] ==> st == Lexer([w] + ws[..|ws| - 1], Some(ws[|ws| - 1]), None)
    ensures st.done + (if st.cur.Some? then [st.cur.value] else []) == [w] + ws
  {
    if ws != [] {
      assert [w] + ws[..|ws| - 1] + [ws[|ws| - 1]] == [w] + ws;
    }
  }

  lemma SplitOfState(s: string, st: Lexer)
    requires Run(Start, s) == st && st.quote.None?
    ensures ShlexSplit(s) == Ok(st.done + if st.cur.Some? then [st.cur.value] else [])
  {
  }

  lemma RunWords(w: string, ws: seq<string>) returns (st: Lexer)
    requires Plain(w) && forall i :: 0 <= i < |ws| ==> Plain(ws[i])
    ensures st == Run(Start, w + " " + Join(" ", ws))
    ensures ws == [] ==> st == Lexer([w], None, None)
    ensures ws != [] ==> st == Lexer([w] + ws[..|ws| - 1], Some(ws[|ws| - 1]), None)
  {
    var after := RunWordSpace(w);
    RunConcat(Start, w + " ", Join(" ", ws));
    st := Run(after, Join(" ", ws));
    if ws == [] {
      assert Join(" ", ws) == "";
    } else {
      RunJoin([w], ws);
    }
  }

  lemma RunWordSpace(w: string) returns (st: Lexer)
    requires Plain(w)
    ensures st == Lexer([w], None, None) && Run(Start, w + " ") == st
  {
    RunConcat(Start, w, " ");
    RunPlain([], None, w);
    assert "" + w == w;
    st := Lexer([w], None, None);
    assert Run(Lexer([], Some(w), None), " ") == st;
  }

  /** A double-quoted part stays one word, spaces included, without its quotes. */
  lemma QuotedStaysWhole(t: string)
    requires forall k :: 0 <= k < |t| ==> t[k] != '"'
    ensures ShlexSplit("\"" + t + "\"") == Ok([t])
  {
    var open := Lexer([], Some(""), Some('"'));
    assert Run(Start, "\"") == open;
    assert "\"" + t + "\"" == "\"" + (t + "\"");
    RunConcat(Start, "\"", t + "\"");
    RunConcat(open, t, "\"");
    QuotedRun([], "", t);
    assert "" + t == t;
    var closed := Lexer([], Some(t), None);
    assert Run(Lexer([], Some(t), Some('"')), "\"") == closed;
    assert Run(Start, "\"" + t + "\"") == closed;
    assert closed.done + [t] == [t];
  }

  lemma {:induction false} QuotedRun(d: seq<string>, cur: string, t: string)
    requires forall k :: 0 <= k < |t| ==> t[k] != '"'
    ensures Run(Lexer(d, Some(cur), Some('"')), t) == Lexer(d, Some(cur + t), Some('"'))
    decreases |t|
  {
    if t == [] {
      assert cur + t == cur;
    } else {
      QuotedRun(d, cur + [t[0]], t[1..]);
      assert cur + [t[0]] + t[1..] == cur + t;
    }
  }
}
