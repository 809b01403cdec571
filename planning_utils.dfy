/**
 * `core/Planning/utils.py`: the list phrasing and capitalisation helpers
 * the question and statement generators share.
 */
module PlanningUtils {

  import opened Wrappers
  import opened Chars
  import opened Text

  /**
   * `oxfordcomma(items)`: nothing for no items, the item itself for one,
   * "a and b" for two, and "a, b, and c" for three or more.
   */
  function Oxfordcomma(items: seq<string>): string
  {
    if |items| == 0 then ""
    else if |items| == 1 then items[0]
    else if |items| == 2 then items[0] + " and " + items[1]
    else Join(", ", items[..|items| - 1]) + ", and " + items[|items| - 1]
  }

  /** The sum of the lengths of `items`. */
  function TotalLength(items: seq<string>): nat
  {
    if items == [] then 0 else |items[0]| + TotalLength(items[1..])
  }

  lemma {:induction false} TotalLengthAppend(items: seq<string>, x: string)
    ensures TotalLength(items + [x]) == TotalLength(items) + |x|
  {
    if items != [] {
      assert (items + [x])[1..] == items[1..] + [x];
      TotalLengthAppend(items[1..], x);
    }
  }

  /** `sep.join(items)` adds one separator between each two items. */
  lemma {:induction false} JoinLength(sep: string, items: seq<string>)
    requires items != []
    ensures |Join(sep, items)| == TotalLength(items) + (|items| - 1) * |sep|
  {
    if |items| > 1 {
      JoinLength(sep, items[1..]);
    }
  }

  /**
   * The phrase holds every item once plus the connecting words: " and "
   * between two items, and for n >= 3 items n - 2 commas ", " and a
   * final ", and ".
   */
  lemma OxfordcommaLength(items: seq<string>)
    ensures |items| <= 1 ==> |Oxfordcomma(items)| == TotalLength(items)
    ensures |items| == 2 ==> |Oxfordcomma(items)| == TotalLength(items) + 5
    ensures |items| >= 3 ==> |Oxfordcomma(items)| == TotalLength(items) + 2 * (|items| - 2) + 6
  {
    var n := |items|;
    if n == 2 {
      assert items[1..][1..] == [];
    } else if n >= 3 {
      var front := items[..n - 1];
      JoinLength(", ", front);
      TotalLengthAppend(front, items[n - 1]);
      assert front + [items[n - 1]] == items;
    } else if n == 1 {
      assert items[1..] == [];
    }
  }

  /** The phrase starts with the first item and ends with the last. */
  lemma OxfordcommaEnds(items: seq<string>)
    requires items != []
    ensures StartsWith(Oxfordcomma(items), items[0])
    ensures EndsWith(Oxfordcomma(items), items[|items| - 1])
  {
    var n := |items|;
    if n >= 3 {
      var front := items[..n - 1];
      JoinStartsWithFirst(", ", front);
      assert front[0] == items[0];
    }
  }

  lemma {:induction false} JoinStartsWithFirst(sep: string, items: seq<string>)
    requires items != []
    ensures StartsWith(Join(sep, items), items[0])
  {
    if |items| > 1 {
      var j := Join(sep, items);
      assert j == items[0] + (sep + Join(sep, items[1..]));
      assert j[..|items[0]|] == items[0];
    }
  }

  /**
   * Adding an item to a list of two or more puts ", " between the old
   * last item and ", and " before the new one.
   */
  lemma OxfordcommaExtend(items: seq<string>, x: string)
    requires |items| >= 2
    ensures Oxfordcomma(items + [x]) == Join(", ", items) + ", and " + x
  {
    var ys := items + [x];
    assert |ys| > 2 && ys[..|ys| - 1] == items && ys[|ys| - 1] == x;
  }

  /**
   * `capitalize_first_only(s)`: the first character upper-cased and the
   * rest unchanged; an empty string raises IndexError at `s[0]`.
   */
  function CapitalizeFirstOnly(s: string): (r: Result<string>)
    ensures r.Err? <==> s == ""
    ensures r.Err? ==> r.error == IndexError
    ensures r.Ok? ==> |r.value| == |s| && r.value[0] == ToUpperChar(s[0]) && r.value[1..] == s[1..]
  {
    if s == "" then Err(IndexError) else Ok([ToUpperChar(s[0])] + s[1..])
  }

  /** Capitalising twice is capitalising once. */
  lemma CapitalizeIdempotent(s: string)
    requires s != ""
    ensures CapitalizeFirstOnly(CapitalizeFirstOnly(s).value) == CapitalizeFirstOnly(s)
  {
    var c := CapitalizeFirstOnly(s).value;
    assert c == [c[0]] + c[1..];
  }
}
