/**
 * Python's ordering of `str` values (code point by code point, a proper
 * prefix first) and `sorted(xs, reverse=True)` on lists of strings.
 */
module StringOrder {

  /** `a < b` on Python strings. */
  predicate Less(a: string, b: string)
    decreases |a|
  {
    if a == [] then b != []
    else if b == [] then false
    else if a[0] != b[0] then a[0] < b[0]
    else Less(a[1..], b[1..])
  }

  lemma {:induction false} LessIrreflexive(a: string)
    ensures !Less(a, a)
    decreases |a|
  {
    if a != [] {
      LessIrreflexive(a[1..]);
    }
  }

  /** Two different strings are ordered one way or the other, and never both. */
  lemma {:induction false} LessTotal(a: string, b: string)
    ensures a != b ==> Less(a, b) || Less(b, a)
    ensures !(Less(a, b) && Less(b, a))
    decreases |a|
  {
    if a != [] && b != [] && a[0] == b[0] {
      LessTotal(a[1..], b[1..]);
      if a != b {
        assert a == [a[0]] + a[1..] && b == [b[0]] + b[1..];
      }
    }
  }

  lemma {:induction false} LessTransitive(a: string, b: string, c: string)
    requires Less(a, b) && Less(b, c)
    ensures Less(a, c)
    decreases |a|
  {
    if a != [] && a[0] == b[0] && b[0] == c[0] {
      LessTransitive(a[1..], b[1..], c[1..]);
    }
  }

  /** No later element is greater than an earlier one. */
  predicate Descending(s: seq<string>)
  {
    forall i, j :: 0 <= i < j < |s| ==> !Less(s[i], s[j])
  }

  /** `x` goes before the first element it is not less than. */
  function Insert(x: string, s: seq<string>): (r: seq<string>)
    ensures multiset(r) == multiset(s) + multiset{x}
    ensures |r| == |s| + 1
  {
    if s == [] || !Less(x, s[0]) then [x] + s
    else
      assert s == [s[0]] + s[1..];
      [s[0]] + Insert(x, s[1..])
  }

  /** Every element of `r` is at most `m`, when every element of `s` and `x` are. */
  lemma {:induction false} InsertBounded(x: string, s: seq<string>, m: string)
    requires !Less(m, x) && forall k :: 0 <= k < |s| ==> !Less(m, s[k])
    ensures forall k :: 0 <= k < |Insert(x, s)| ==> !Less(m, Insert(x, s)[k])
  {
    var r := Insert(x, s);
    forall k | 0 <= k < |r|
      ensures !Less(m, r[k])
    {
      assert r[k] in multiset(s) + multiset{x};
      if r[k] != x {
        assert r[k] in multiset(s);
        var j :| 0 <= j < |s| && s[j] == r[k];
      }
    }
  }

  lemma {:induction false} InsertDescending(x: string, s: seq<string>)
    requires Descending(s)
    ensures Descending(Insert(x, s))
    decreases |s|
  {
    if s == [] || !Less(x, s[0]) {
      var r := [x] + s;
      forall i, j | 0 <= i < j < |r|
        ensures !Less(r[i], r[j])
      {
        if i == 0 {
          if j > 1 {
            assert !Less(s[0], s[j - 1]);
          }
          if Less(x, r[j]) {
            if j == 1 {
            } else {
              LessTotal(s[0], s[j - 1]);
              if s[0] == s[j - 1] {
              } else {
                LessTransitive(x, s[j - 1], s[0]);
              }
            }
          }
        }
      }
    } else {
      var tail := s[1..];
      assert Descending(tail) by {
        forall i, j | 0 <= i < j < |tail| ensures !Less(tail[i], tail[j]) {
          assert tail[i] == s[i + 1] && tail[j] == s[j + 1];
        }
      }
      InsertDescending(x, tail);
      LessTotal(x, s[0]);
      assert forall k :: 0 <= k < |tail| ==> !Less(s[0], tail[k]) by {
        forall k | 0 <= k < |tail| ensures !Less(s[0], tail[k]) {
          assert tail[k] == s[k + 1];
        }
      }
      InsertBounded(x, tail, s[0]);
      var r := [s[0]] + Insert(x, tail);
      forall i, j | 0 <= i < j < |r|
        ensures !Less(r[i], r[j])
      {
        if i > 0 {
          assert r[i] == Insert(x, tail)[i - 1] && r[j] == Insert(x, tail)[j - 1];
        }
      }
    }
  }

  /** `sorted(xs, reverse=True)`, by insertion. */
  function SortDescending(xs: seq<string>): (r: seq<string>)
    ensures multiset(r) == multiset(xs)
    ensures |r| == |xs|
  {
    if xs == [] then []
    else
      assert xs == [xs[0]] + xs[1..];
      Insert(xs[0], SortDescending(xs[1..]))
  }

  lemma {:induction false} SortDescendingSorted(xs: seq<string>)
    ensures Descending(SortDescending(xs))
  {
    if xs != [] {
      SortDescendingSorted(xs[1..]);
      InsertDescending(xs[0], SortDescending(xs[1..]));
    }
  }

  /** The first element of a non-empty descending list is its greatest. */
  lemma HeadGreatest(s: seq<string>, x: string)
    requires Descending(s) && x in multiset(s)
    ensures s != [] && !Less(s[0], x)
  {
    var k :| 0 <= k < |s| && s[k] == x;
    if k > 0 {
      assert !Less(s[0], s[k]);
    } else {
      LessIrreflexive(x);
    }
  }

  lemma DescendingTail(s: seq<string>)
    requires Descending(s) && s != []
    ensures Descending(s[1..])
  {
    forall i, j | 0 <= i < j < |s[1..]| ensures !Less(s[1..][i], s[1..][j]) {
      assert s[1..][i] == s[i + 1] && s[1..][j] == s[j + 1];
    }
  }

  /** A descending list is determined by its elements. */
  lemma {:induction false} DescendingUnique(s: seq<string>, t: seq<string>)
    requires Descending(s) && Descending(t) && multiset(s) == multiset(t)
    ensures s == t
    decreases |s|
  {
    if s != [] {
      assert s[0] in multiset(t);
      assert t != [];
      assert t[0] in multiset(s);
      HeadGreatest(t, s[0]);
      HeadGreatest(s, t[0]);
      LessTotal(s[0], t[0]);
      assert s[0] == t[0];
      assert s == [s[0]] + s[1..] && t == [t[0]] + t[1..];
      assert multiset(s) == multiset{s[0]} + multiset(s[1..]);
      assert multiset(t) == multiset{t[0]} + multiset(t[1..]);
      assert multiset(s[1..]) == multiset(t[1..]) by {
        forall x ensures multiset(s[1..])[x] == multiset(t[1..])[x] {
          assert multiset(s)[x] == multiset{s[0]}[x] + multiset(s[1..])[x];
          assert multiset(t)[x] == multiset{t[0]}[x] + multiset(t[1..])[x];
        }
      }
      DescendingTail(s);
      DescendingTail(t);
      DescendingUnique(s[1..], t[1..]);
    } else {
      assert |t| == |multiset(t)| == 0;
    }
  }

  /**
   * The sorted list is descending, holds the same elements, and does not
   * depend on the order they came in: the sort makes the result
   * deterministic.
   */
  lemma SortDescendingMeaning(xs: seq<string>, ys: seq<string>)
    ensures Descending(SortDescending(xs)) && multiset(SortDescending(xs)) == multiset(xs)
    ensures multiset(xs) == multiset(ys) ==> SortDescending(xs) == SortDescending(ys)
  {
    SortDescendingSorted(xs);
    SortDescendingSorted(ys);
    if multiset(xs) == multiset(ys) {
      DescendingUnique(SortDescending(xs), SortDescending(ys));
    }
  }
}
