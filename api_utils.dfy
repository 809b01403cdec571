/**
 * The string and relationship helpers of `core/api/utils.py`: reference
 * and date-suffix recognition (the regular expressions written out as
 * scans), `parse_ref_string`, the relationship-type algebra
 * (`mirror_rel`, `rel_math`, `walk_rel_path`) and the decoding of
 * subquery column names.
 */
module ApiUtils {

  import opened Wrappers
  import opened Chars
  import opened Text

  // ---------------------------------------------------------------------------
  // is_arg_reference: re.search(r'\|[\w]+\|', arg)
  // ---------------------------------------------------------------------------

  /** `s[i..j+1]` is a match of `\|\w+\|`. */
  predicate PipeWordPipe(s: string, i: int, j: int)
  {
    0 <= i && i + 1 < j < |s| && s[i] == '|' && s[j] == '|' && AllWordChars(s[i + 1..j])
  }

  /** The end of the longest run of word characters starting at `k`. */
  function WordRunEnd(s: string, k: nat): (e: nat)
    requires k <= |s|
    ensures k <= e <= |s|
    ensures AllWordChars(s[k..e])
    ensures e < |s| ==> !IsWordChar(s[e])
    decreases |s| - k
  {
    if k < |s| && IsWordChar(s[k]) then
      var e := WordRunEnd(s, k + 1);
      assert s[k..e] == [s[k]] + s[k + 1..e];
      e
    else k
  }

  /** Some match of `\|\w+\|` starts at a position `>= i`. */
  function RefFrom(s: string, i: nat): (b: bool)
    requires i <= |s|
    ensures b <==> exists p, j :: i <= p && PipeWordPipe(s, p, j)
    decreases |s| - i
  {
    if i == |s| then false
    else
      var here := s[i] == '|' && (var e := WordRunEnd(s, i + 1); i + 1 < e < |s| && s[e] == '|');
      if here then
        assert PipeWordPipe(s, i, WordRunEnd(s, i + 1));
        true
      else
        var rest := RefFrom(s, i + 1);
        assert forall j :: PipeWordPipe(s, i, j) ==> false by {
          forall j | PipeWordPipe(s, i, j) ensures false {
            RunStopsAtPipe(s, i + 1, j);
          }
        }
        rest
  }

  /** A run of word characters ending at a `|` is the longest run. */
  lemma RunStopsAtPipe(s: string, k: nat, j: nat)
    requires k <= j < |s| && s[j] == '|' && AllWordChars(s[k..j])
    ensures WordRunEnd(s, k) == j
    decreases j - k
  {
    if k < j {
      assert IsWordChar(s[k..j][0]);
      assert s[k + 1..j] == s[k..j][1..];
      RunStopsAtPipe(s, k + 1, j);
    }
  }

  /** `is_arg_reference` on a string argument: `re.search(r'\|[\w]+\|', s)`. */
  function IsArgReference(s: string): (b: bool)
    ensures b <==> exists i, j :: PipeWordPipe(s, i, j)
  {
    RefFrom(s, 0)
  }

  // ---------------------------------------------------------------------------
  // contains_date_denomination: re.fullmatch(r'(\w+)(:day|...|:year)', column)
  // ---------------------------------------------------------------------------

  const DateSuffixes: seq<string> := [":day", ":dayofweek", ":month", ":onlyday", ":onlymonth", ":year"]

  /** A split of `s` into the two groups of the full match. */
  predicate DateSplitAt(s: string, p: int)
  {
    0 < p <= |s| && AllWordChars(s[..p]) && s[p..] in DateSuffixes
  }

  /**
   * The two groups `(\w+)` and the suffix of a full match, or None when the
   * pattern does not match the whole string.
   */
  function DateDenomination(s: string): (r: Option<(string, string)>)
    ensures r.Some? <==> exists p :: DateSplitAt(s, p)
    ensures r.Some? ==> s == r.value.0 + r.value.1 && DateSplitAt(s, |r.value.0|)
  {
    var p := WordRunEnd(s, 0);
    if 0 < p && s[p..] in DateSuffixes then
      assert s == s[..p] + s[p..];
      assert s[..p] == s[0..p];
      assert DateSplitAt(s, p);
      Some((s[..p], s[p..]))
    else
      assert forall q :: DateSplitAt(s, q) ==> q == p by {
        forall q | DateSplitAt(s, q) ensures q == p {
          DateRunEnd(s, q);
        }
      }
      None
  }

  lemma DateRunEnd(s: string, q: nat)
    requires DateSplitAt(s, q)
    ensures WordRunEnd(s, 0) == q
  {
    assert s[q..][0] == ':';
    assert s[..q] == s[0..q];
    ColonStopsRun(s, 0, q);
  }

  lemma ColonStopsRun(s: string, k: nat, q: nat)
    requires k <= q < |s| && s[q] == ':' && AllWordChars(s[k..q])
    ensures WordRunEnd(s, k) == q
    decreases q - k
  {
    if k < q {
      assert IsWordChar(s[k..q][0]);
      assert s[k + 1..q] == s[k..q][1..];
      ColonStopsRun(s, k + 1, q);
    }
  }

  predicate ContainsDateDenomination(s: string)
  {
    DateDenomination(s).Some?
  }

  /** A plain attribute name followed by one suffix is recognised and split back. */
  lemma DateDenominationOf(base: string, suffix: string)
    requires |base| > 0 && AllWordChars(base) && suffix in DateSuffixes
    ensures DateDenomination(base + suffix) == Some((base, suffix))
  {
    var s := base + suffix;
    assert s[..|base|] == base && s[|base|..] == suffix;
    assert DateSplitAt(s, |base|);
    DateRunEnd(s, |base|);
  }

  // ---------------------------------------------------------------------------
  // parse_ref_string
  // ---------------------------------------------------------------------------

  function Concat(xs: seq<string>): string
  {
    if xs == [] then "" else xs[0] + Concat(xs[1..])
  }

  lemma {:induction false} ConcatAppend(xs: seq<string>, x: string)
    ensures Concat(xs + [x]) == Concat(xs) + x
  {
    if xs != [] {
      assert (xs + [x])[1..] == xs[1..] + [x];
      ConcatAppend(xs[1..], x);
    }
  }

  /** A piece of a reference string: non-empty, `$` only first, `}` only last. */
  predicate GoodSegment(v: string)
  {
    |v| > 0 &&
    (forall m :: 0 < m < |v| ==> v[m] != '$') &&
    (forall m :: 0 <= m < |v| - 1 ==> v[m] != '}')
  }

  /**
   * The shape of a correct split of a reference string: equally many pieces
   * and flags, every piece a GoodSegment, and a piece flagged exactly when
   * it opens with `$`.
   */
  predicate RefSegments(vals: seq<string>, flags: seq<bool>)
  {
    |vals| == |flags| &&
    forall k :: 0 <= k < |vals| ==> GoodSegment(vals[k]) && flags[k] == (vals[k][0] == '$')
  }

  /** Two neighbouring pieces are cut where the scan cuts: after a `}` or before a `$`. */
  predicate CutBetween(a: string, b: string)
  {
    |a| > 0 && |b| > 0 && (a[|a| - 1] == '}' || b[0] == '$')
  }

  /** The pieces are cut only where the scan cuts, so no two neighbours could be one piece. */
  predicate CutsAtMarks(vals: seq<string>)
  {
    forall i, j :: 0 <= i < |vals| && j == i + 1 && j < |vals| ==> CutBetween(vals[i], vals[j])
  }

  /** The state of the scan at `start`: the pieces so far, and how the next piece will join them. */
  predicate Scanned(refStr: string, vals: seq<string>, flags: seq<bool>, start: nat)
  {
    && start <= |refStr|
    && RefSegments(vals, flags)
    && CutsAtMarks(vals)
    && Concat(vals) == refStr[..start]
    && (|vals| > 0 ==> CutBetween(vals[|vals| - 1], refStr[start..]) || start == |refStr|)
  }

  /** Appending the piece `refStr[start..end]` to a scan state at `start` gives the state at `end`. */
  lemma ScannedAppend(refStr: string, vals: seq<string>, flags: seq<bool>, start: nat, end: nat)
    requires Scanned(refStr, vals, flags, start) && start < end <= |refStr|
    requires forall m :: start < m < end ==> refStr[m] != '$'
    requires forall m :: start <= m < end - 1 ==> refStr[m] != '}'
    requires end < |refStr| ==> refStr[end - 1] == '}' || refStr[end] == '$'
    ensures Scanned(refStr, vals + [refStr[start..end]], flags + [refStr[start] == '$'], end)
  {
    var v := refStr[start..end];
    SliceSegment(refStr, start, end);
    SegmentsAppend(vals, flags, v, refStr[start] == '$');
    ConcatAppend(vals, v);
    SlicesJoin(refStr, start, end);
    if |vals| > 0 {
      CutBeforeSlice(vals[|vals| - 1], refStr, start, end);
    }
    CutsAppend(vals, v);
    if end < |refStr| {
      CutAfterSlice(refStr, start, end);
    }
  }

  lemma SlicesJoin(s: string, start: nat, end: nat)
    requires start <= end <= |s|
    ensures s[..end] == s[..start] + s[start..end]
  {
  }

  lemma CutBeforeSlice(a: string, s: string, start: nat, end: nat)
    requires start < end <= |s| && CutBetween(a, s[start..])
    ensures CutBetween(a, s[start..end])
  {
    assert s[start..][0] == s[start] == s[start..end][0];
  }

  lemma CutAfterSlice(s: string, start: nat, end: nat)
    requires start < end < |s| && (s[end - 1] == '}' || s[end] == '$')
    ensures CutBetween(s[start..end], s[end..])
  {
    assert s[end..][0] == s[end];
    assert s[start..end][end - start - 1] == s[end - 1];
  }

  /** A piece cut from the last one where the scan cuts keeps the pieces cut at the marks. */
  lemma CutsAppend(vals: seq<string>, v: string)
    requires CutsAtMarks(vals) && |v| > 0
    requires |vals| > 0 ==> CutBetween(vals[|vals| - 1], v)
    ensures CutsAtMarks(vals + [v])
  {
    var w := vals + [v];
    forall i, j | 0 <= i < |w| && j == i + 1 && j < |w| ensures CutBetween(w[i], w[j]) {
      if j < |vals| {
        assert w[i] == vals[i] && w[j] == vals[j];
      }
    }
  }

  lemma SliceSegment(s: string, start: nat, end: nat)
    requires start < end <= |s|
    requires forall m :: start < m < end ==> s[m] != '$'
    requires forall m :: start <= m < end - 1 ==> s[m] != '}'
    ensures GoodSegment(s[start..end]) && s[start..end][0] == s[start]
  {
    var v := s[start..end];
    forall m | 0 < m < |v| ensures v[m] != '$' { assert v[m] == s[start + m]; }
    forall m | 0 <= m < |v| - 1 ensures v[m] != '}' { assert v[m] == s[start + m]; }
  }

  lemma SegmentsAppend(vals: seq<string>, flags: seq<bool>, v: string, f: bool)
    requires RefSegments(vals, flags) && GoodSegment(v) && f == (v[0] == '$')
    ensures RefSegments(vals + [v], flags + [f])
  {
  }

  method ParseRefString(refStr: string) returns (vals: seq<string>, flags: seq<bool>)
    ensures RefSegments(vals, flags)
    ensures CutsAtMarks(vals)
    ensures Concat(vals) == refStr
  {
    vals, flags := [], [];
    var idx := 0;
    var isAttr := false;
    var start := 0;
    while idx < |refStr|
      invariant 0 <= start <= idx <= |refStr|
      invariant Scanned(refStr, vals, flags, start)
      invariant start == idx ==> !isAttr
      invariant start < idx ==> isAttr == (refStr[start] == '$')
      invariant forall m :: start < m < idx ==> refStr[m] != '$'
      invariant forall m :: start <= m < idx ==> refStr[m] != '}'
    {
      if refStr[idx] == '$' {
        if idx > start {
          ScannedAppend(refStr, vals, flags, start, idx);
          vals, flags := vals + [refStr[start..idx]], flags + [isAttr];
        }
        isAttr := true;
        start := idx;
      } else if refStr[idx] == '}' {
        ScannedAppend(refStr, vals, flags, start, idx + 1);
        vals, flags := vals + [refStr[start..idx + 1]], flags + [isAttr];
        isAttr := false;
        start := idx + 1;
      }
      idx := idx + 1;
    }
    if start < |refStr| {
      ScannedAppend(refStr, vals, flags, start, |refStr|);
      vals, flags := vals + [refStr[start..]], flags + [isAttr];
    }
    assert refStr[..|refStr|] == refStr;
  }

  /** Every piece of a split is a GoodSegment. */
  predicate AllGood(vals: seq<string>)
  {
    forall k :: 0 <= k < |vals| ==> GoodSegment(vals[k])
  }

  /** In two splits of one string, the first piece of the one cannot be shorter than that of the other. */
  lemma FirstPieceNotShorter(a: seq<string>, b: seq<string>)
    requires a != [] && b != [] && AllGood(a) && AllGood(b)
    requires CutsAtMarks(a) && Concat(a) == Concat(b)
    ensures |a[0]| >= |b[0]|
  {
    var s := Concat(a);
    var n := |a[0]|;
    assert s == a[0] + Concat(a[1..]) && s == b[0] + Concat(b[1..]);
    assert forall m :: 0 <= m < |b[0]| ==> s[m] == b[0][m];
    if |a| > 1 {
      assert CutBetween(a[0], a[1]);
      assert Concat(a[1..]) == a[1] + Concat(a[2..]);
      if a[0][n - 1] == '}' {
        assert s[n - 1] == '}';
      } else {
        assert s[n] == '$';
      }
    } else {
      assert Concat(a[1..]) == "";
    }
  }

  /**
   * A string has only one split into good pieces cut at the marks, so
   * `ParseRefString`'s pieces are determined by its input.
   */
  lemma {:induction false} SplitUnique(a: seq<string>, b: seq<string>)
    requires AllGood(a) && AllGood(b) && CutsAtMarks(a) && CutsAtMarks(b)
    requires Concat(a) == Concat(b)
    ensures a == b
    decreases |a|
  {
    if a != [] && b != [] {
      FirstPieceNotShorter(a, b);
      FirstPieceNotShorter(b, a);
      assert Concat(a) == a[0] + Concat(a[1..]) && Concat(b) == b[0] + Concat(b[1..]);
      assert a[0] == Concat(a)[..|a[0]|] == b[0];
      assert Concat(a[1..]) == Concat(b[1..]);
      assert CutsAtMarks(a[1..]) by {
        forall i, j | 0 <= i < |a[1..]| && j == i + 1 && j < |a[1..]| ensures CutBetween(a[1..][i], a[1..][j]) {
          assert CutBetween(a[i + 1], a[j + 1]);
        }
      }
      assert CutsAtMarks(b[1..]) by {
        forall i, j | 0 <= i < |b[1..]| && j == i + 1 && j < |b[1..]| ensures CutBetween(b[1..][i], b[1..][j]) {
          assert CutBetween(b[i + 1], b[j + 1]);
        }
      }
      SplitUnique(a[1..], b[1..]);
      assert a == [a[0]] + a[1..] && b == [b[0]] + b[1..];
    }
  }

  // ---------------------------------------------------------------------------
  // Relationship-type algebra
  // ---------------------------------------------------------------------------

  /** The four relationship types the dictionary of `mirror_rel` knows. */
  predicate IsBaseRel(t: string)
  {
    t == "o2o" || t == "m2m" || t == "o2m" || t == "m2o"
  }

  /** `mirror_rel`: the type seen from the other end; unknown keys raise KeyError. */
  function MirrorRel(t: string): (r: Result<string>)
    ensures r.Ok? <==> IsBaseRel(t)
    ensures r.Ok? ==> IsBaseRel(r.value) && |r.value| == 3
    ensures r.Err? ==> r.error == KeyError(t)
  {
    if t == "o2o" then Ok("o2o")
    else if t == "m2m" then Ok("m2m")
    else if t == "o2m" then Ok("m2o")
    else if t == "m2o" then Ok("o2m")
    else Err(KeyError(t))
  }

  function Reverse(s: string): (r: string)
    ensures |r| == |s|
  {
    if s == [] then [] else Reverse(s[1..]) + [s[0]]
  }

  lemma {:induction false} ReverseSnoc(s: string, c: char)
    ensures Reverse(s + [c]) == [c] + Reverse(s)
  {
    if s != [] {
      assert (s + [c])[1..] == s[1..] + [c];
      ReverseSnoc(s[1..], c);
    }
  }

  /** Reversing a string twice gives it back. */
  lemma {:induction false} ReverseInvolutive(s: string)
    ensures Reverse(Reverse(s)) == s
  {
    if s != [] {
      ReverseSnoc(Reverse(s[1..]), s[0]);
      ReverseInvolutive(s[1..]);
    }
  }

  /** Mirroring twice gives the type back. */
  lemma MirrorInvolutive(t: string)
    requires IsBaseRel(t)
    ensures MirrorRel(MirrorRel(t).value) == Ok(t)
  {
  }

  /** On the four types, the reversed string (`type[::-1]`) is the mirror. */
  lemma MirrorIsReverse(t: string)
    requires IsBaseRel(t)
    ensures MirrorRel(t) == Ok(Reverse(t))
  {
    assert Reverse(t) == [t[2], t[1], t[0]] by {
      assert t[1..][1..][1..] == [];
      assert Reverse(t[1..][1..]) == [t[2]];
    }
  }

  /**
   * `rel_math`: composing the type accumulated so far with the next one.
   * `None` is Python's None, which the function returns when no branch
   * applies (it has no final `return`).
   */
  function RelMath(init: Option<string>, next: Option<string>): (r: Option<string>)
    ensures init == Some("o2o") ==> r == next
    ensures next == Some("o2o") ==> r == init
    ensures init == Some("m2m") || next == Some("m2m") ==> r == Some("m2m")
    ensures init.Some? && next.Some? && IsBaseRel(init.value) && IsBaseRel(next.value) ==>
              r.Some? && (IsBaseRel(r.value) || r.value == "NA")
  {
    if init == Some("o2o") then next
    else if next == Some("o2o") then init
    else if init == Some("m2m") || next == Some("m2m") then Some("m2m")
    else if init == Some("o2m") then
      if next == Some("m2o") then Some("m2m")
      else if next == Some("o2m") then Some("o2m")
      else None
    else if init == Some("m2o") then
      if next == Some("m2o") then Some("m2o")
      else if next == Some("o2m") then Some("NA")
      else None
    else None
  }

  /**
   * Composing in the other direction mirrors the result: walking two
   * relationships backwards gives the mirror of walking them forwards,
   * whenever the forward composition is one of the four types.
   */
  lemma RelMathMirror(a: string, b: string)
    requires IsBaseRel(a) && IsBaseRel(b)
    requires RelMath(Some(a), Some(b)) != Some("NA")
    ensures MirrorRel(RelMath(Some(a), Some(b)).value) ==
            Ok(RelMath(Some(MirrorRel(b).value), Some(MirrorRel(a).value)).value)
  {
  }

  /** What `walk_rel_path` reads of a relationship. */
  datatype RelView<E> = RelView(fro: E, to: E, relType: Option<string>, bidirectional: bool)

  /** `mirror_rel` applied to a type that may be None, which is not a key either. */
  function MirrorType(t: Option<string>): (r: Result<string>)
    ensures t.Some? ==> r == MirrorRel(t.value)
    ensures t.None? ==> r == Err(KeyError("None"))
  {
    match t
    case None => Err(KeyError("None"))
    case Some(v) => MirrorRel(v)
  }

  /**
   * The outcome of `walk_rel_path(fro, to, rels)` started at entity `curr`
   * with accumulated type `acc`: Ok(Some("NA")) for a broken chain or a
   * wrong endpoint, Err when a backwards step mirrors an unknown type.
   */
  function Walk<E(==)>(curr: E, acc: Option<string>, to: E, rels: seq<RelView<E>>): Result<Option<string>>
    decreases |rels|
  {
    if rels == [] then
      if curr != to then Ok(Some("NA")) else Ok(acc)
    else
      var rel := rels[0];
      if rel.fro == curr then
        Walk(rel.to, RelMath(acc, rel.relType), to, rels[1..])
      else if rel.to == curr && rel.bidirectional then
        match MirrorType(rel.relType)
        case Err(e) => Err(e)
        case Ok(m) => Walk(rel.fro, RelMath(acc, Some(m)), to, rels[1..])
      else Ok(Some("NA"))
  }

  method WalkRelPath<E(==)>(fro: E, to: E, rels: seq<RelView<E>>) returns (r: Result<Option<string>>)
    ensures r == Walk(fro, Some("o2o"), to, rels)
  {
    var initRel: Option<string> := Some("o2o");
    var curr := fro;
    var i := 0;
    while i < |rels|
      invariant 0 <= i <= |rels|
      invariant Walk(fro, Some("o2o"), to, rels) == Walk(curr, initRel, to, rels[i..])
    {
      var rel := rels[i];
      assert rels[i..][1..] == rels[i + 1..];
      var currRel: Option<string>;
      if rel.fro == curr {
        currRel := rel.relType;
        curr := rel.to;
      } else if rel.to == curr && rel.bidirectional {
        var m := MirrorType(rel.relType);
        if m.Err? {
          return Err(m.error);
        }
        currRel := Some(m.value);
        curr := rel.fro;
      } else {
        return Ok(Some("NA"));
      }
      initRel := RelMath(initRel, currRel);
      i := i + 1;
    }
    if curr != to {
      return Ok(Some("NA"));
    }
    return Ok(initRel);
  }

  /** A path of one forward relationship of a known type has exactly that type. */
  lemma WalkSingleForward<E>(rel: RelView<E>)
    requires rel.relType.Some? && IsBaseRel(rel.relType.value)
    ensures Walk(rel.fro, Some("o2o"), rel.to, [rel]) == Ok(rel.relType)
  {
    assert [rel][1..] == [];
  }

  /**
   * Walking a bidirectional relationship backwards gives the mirror of
   * walking it forwards.
   */
  lemma WalkSingleBackward<E>(rel: RelView<E>)
    requires rel.relType.Some? && IsBaseRel(rel.relType.value) && rel.bidirectional && rel.fro != rel.to
    ensures Walk(rel.to, Some("o2o"), rel.fro, [rel]) == Ok(Some(MirrorRel(rel.relType.value).value))
  {
    assert [rel][1..] == [];
  }

  /** A path whose first relationship does not touch the start entity is broken. */
  lemma WalkBrokenStart<E>(fro: E, to: E, rels: seq<RelView<E>>)
    requires rels != [] && rels[0].fro != fro && !(rels[0].to == fro && rels[0].bidirectional)
    ensures Walk(fro, Some("o2o"), to, rels) == Ok(Some("NA"))
  {
  }

  // ---------------------------------------------------------------------------
  // entity_from_subquery_name
  // ---------------------------------------------------------------------------

  /** Drops the leading pieces that name a subquery (the remove-and-break loop). */
  function DropSubqueryNames(attrs: seq<string>, names: seq<string>): (r: seq<string>)
    ensures |r| <= |attrs| && r == attrs[|attrs| - |r|..]
    ensures r == [] || r[0] !in names
    ensures forall k :: 0 <= k < |attrs| - |r| ==> attrs[k] in names
  {
    if attrs != [] && attrs[0] in names then DropSubqueryNames(attrs[1..], names) else attrs
  }

  /**
   * The dictionary `entity_from_subquery_name` builds: {} for an operation
   * column (ending in ')'), otherwise entity and field from the first two
   * pieces after the subquery aliases, and key := val for each further
   * "val__key" piece. Fewer than two pieces, or a further piece that does
   * not split into exactly two around "__", raise ValueError.
   */
  function SubqueryNameSpec(colName: string, names: seq<string>): Result<map<string, string>>
  {
    if EndsWith(colName, ")") then Ok(map[])
    else
      var attrs := DropSubqueryNames(Split(colName, "//"), names);
      if |attrs| < 2 then Err(ValueError("not enough values to unpack"))
      else AddExtraKeys(map["entity" := attrs[0], "field" := attrs[1]], attrs[2..])
  }

  function AddExtraKeys(d: map<string, string>, extra: seq<string>): Result<map<string, string>>
    decreases |extra|
  {
    if extra == [] then Ok(d)
    else
      var parts := Split(extra[0], "__");
      if |parts| != 2 then Err(ValueError("wrong number of values to unpack"))
      else AddExtraKeys(d[parts[1] := parts[0]], extra[1..])
  }

  method EntityFromSubqueryName(colName: string, names: seq<string>) returns (r: Result<map<string, string>>)
    ensures r == SubqueryNameSpec(colName, names)
  {
    if EndsWith(colName, ")") {
      return Ok(map[]);
    }
    var attrs := Split(colName, "//");
    var i := 0;
    while i < |attrs| && attrs[i] in names
      invariant 0 <= i <= |attrs|
      invariant DropSubqueryNames(attrs, names) == DropSubqueryNames(attrs[i..], names)
    {
      DropStep(attrs, names, i);
      i := i + 1;
    }
    var rest := attrs[i..];
    DropDone(attrs, names, i);
    SpecOfRest(colName, names, rest);
    if |rest| < 2 {
      return Err(ValueError("not enough values to unpack"));
    }
    var d := map["entity" := rest[0], "field" := rest[1]];
    var k := 2;
    while k < |rest|
      invariant 2 <= k <= |rest|
      invariant SubqueryNameSpec(colName, names) == AddExtraKeys(d, rest[k..])
    {
      ExtraStep(d, rest, k);
      var parts := Split(rest[k], "__");
      if |parts| != 2 {
        return Err(ValueError("wrong number of values to unpack"));
      }
      d := d[parts[1] := parts[0]];
      k := k + 1;
    }
    ExtraDone(d, rest, k);
    return Ok(d);
  }

  lemma DropStep(attrs: seq<string>, names: seq<string>, i: nat)
    requires i < |attrs| && attrs[i] in names
    ensures DropSubqueryNames(attrs[i..], names) == DropSubqueryNames(attrs[i + 1..], names)
  {
    assert attrs[i..][1..] == attrs[i + 1..];
  }

  lemma DropDone(attrs: seq<string>, names: seq<string>, i: nat)
    requires i <= |attrs| && (i == |attrs| || attrs[i] !in names)
    ensures DropSubqueryNames(attrs[i..], names) == attrs[i..]
  {
  }

  lemma SpecOfRest(colName: string, names: seq<string>, rest: seq<string>)
    requires !EndsWith(colName, ")") && rest == DropSubqueryNames(Split(colName, "//"), names)
    ensures SubqueryNameSpec(colName, names) ==
      if |rest| < 2 then Err(ValueError("not enough values to unpack"))
      else AddExtraKeys(map["entity" := rest[0], "field" := rest[1]], rest[2..])
  {
  }

  lemma ExtraStep(d: map<string, string>, rest: seq<string>, k: nat)
    requires k < |rest|
    ensures AddExtraKeys(d, rest[k..]) ==
      var parts := Split(rest[k], "__");
      if |parts| != 2 then Err(ValueError("wrong number of values to unpack"))
      else AddExtraKeys(d[parts[1] := parts[0]], rest[k + 1..])
  {
    assert rest[k..][0] == rest[k] && rest[k..][1..] == rest[k + 1..];
  }

  lemma ExtraDone(d: map<string, string>, rest: seq<string>, k: nat)
    requires k == |rest|
    ensures AddExtraKeys(d, rest[k..]) == Ok(d)
  {
    assert rest[k..] == [];
  }

  /** Each "val__key" piece only adds or overwrites a key. */
  lemma {:induction false} AddExtraKeysKeeps(d: map<string, string>, extra: seq<string>)
    ensures AddExtraKeys(d, extra).Ok? ==> d.Keys <= AddExtraKeys(d, extra).value.Keys
    decreases |extra|
  {
    if extra != [] {
      var parts := Split(extra[0], "__");
      if |parts| == 2 {
        AddExtraKeysKeeps(d[parts[1] := parts[0]], extra[1..]);
      }
    }
  }

  /** A dictionary the function returns is either empty or names an entity and a field. */
  lemma SubqueryNameKeys(colName: string, names: seq<string>)
    ensures var r := SubqueryNameSpec(colName, names);
      r.Ok? && r.value != map[] ==> "entity" in r.value && "field" in r.value
  {
    if !EndsWith(colName, ")") {
      var attrs := DropSubqueryNames(Split(colName, "//"), names);
      if |attrs| >= 2 {
        AddExtraKeysKeeps(map["entity" := attrs[0], "field" := attrs[1]], attrs[2..]);
      }
    }
  }

  lemma OccursHead(s: string, t: string, j: int)
    requires |t| > 0
    ensures OccursAt(s, t, j) ==> 0 <= j < |s| && s[j] == t[0]
  {
    if OccursAt(s, t, j) {
      assert s[j..j + |t|][0] == s[j];
    }
  }

  /**
   * Decoding a plain entity column name `E//a` (as SQRField writes it)
   * gives back the entity and the attribute.
   */
  lemma SubqueryNameOfEntityColumn(e: string, a: string, names: seq<string>)
    requires e !in names && a != ""
    requires forall k :: 0 <= k < |e| ==> e[k] != '/'
    requires forall k :: 0 <= k < |a| ==> a[k] != '/'
    requires a[|a| - 1] != ')'
    ensures SubqueryNameSpec(e + "//" + a, names) == Ok(map["entity" := e, "field" := a])
  {
    var s := e + "//" + a;
    assert s[|s| - 1] == a[|a| - 1];
    assert s[|s| - 1..] == [s[|s| - 1]];
    assert !EndsWith(s, ")");
    assert OccursAt(s, "//", |e|) by { assert s[|e|..|e| + 2] == "//"; }
    forall j | 0 <= j < |e| ensures !OccursAt(s, "//", j) {
      OccursHead(s, "//", j);
      assert s[j] == e[j];
    }
    assert IndexOf(s, "//") == Some(|e|);
    assert s[..|e|] == e;
    assert s[|e| + 2..] == a;
    forall j ensures !OccursAt(a, "//", j) {
      OccursHead(a, "//", j);
    }
    assert Split(a, "//") == [a];
    assert Split(s, "//") == [e, a];
    assert DropSubqueryNames([e, a], names) == [e, a];
    assert [e, a][2..] == [];
  }
}
