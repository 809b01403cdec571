/**
 * Python dictionaries with string keys, kept as their items in insertion
 * order: the core relies on that order (the last key of a plan, the first
 * alias of a subplan, the order of the select list).
 */
module Dicts {

  import opened Wrappers

  type Dict<V> = seq<(string, V)>

  function Keys<V>(d: Dict<V>): (ks: seq<string>)
    ensures |ks| == |d|
    ensures forall i :: 0 <= i < |d| ==> ks[i] == d[i].0
  {
    seq(|d|, i requires 0 <= i < |d| => d[i].0)
  }

  predicate HasKey<V>(d: Dict<V>, k: string)
  {
    exists i :: 0 <= i < |d| && d[i].0 == k
  }

  /** The keys of `d`, as a set. */
  function KeySet<V>(d: Dict<V>): set<string>
  {
    set i | 0 <= i < |d| :: d[i].0
  }

  /** A dictionary never holds a key twice. */
  predicate DistinctKeys<V>(d: Dict<V>)
  {
    forall i, j :: 0 <= i < j < |d| ==> d[i].0 != d[j].0
  }

  /** `d.get(k)`: the value stored under `k`, if any. */
  function Get<V>(d: Dict<V>, k: string): (r: Option<V>)
    ensures r.Some? ==> exists i :: 0 <= i < |d| && d[i] == (k, r.value)
    ensures r.None? <==> !HasKey(d, k)
  {
    if d == [] then None
    else if d[0].0 == k then Some(d[0].1)
    else Get(d[1..], k)
  }

  /** In a dictionary each item is what its key looks up. */
  lemma {:induction false} GetAt<V>(d: Dict<V>, i: nat)
    requires DistinctKeys(d) && i < |d|
    ensures Get(d, d[i].0) == Some(d[i].1)
  {
    if i > 0 {
      assert DistinctKeys(d[1..]) by {
        forall a, b | 0 <= a < b < |d[1..]| ensures d[1..][a].0 != d[1..][b].0 {
          assert d[1..][a] == d[a + 1] && d[1..][b] == d[b + 1];
        }
      }
      assert d[0].0 != d[i].0;
      GetAt(d[1..], i - 1);
    }
  }

  /** The first item of a dictionary is what its key looks up. */
  lemma GetHead<V>(k: string, v: V, rest: Dict<V>)
    ensures Get([(k, v)] + rest, k) == Some(v)
  {
  }

  /** A lookup of another key passes over the first item. */
  lemma GetSkip<V>(k1: string, v: V, rest: Dict<V>, k: string)
    requires k1 != k
    ensures Get([(k1, v)] + rest, k) == Get(rest, k)
  {
    assert ([(k1, v)] + rest)[1..] == rest;
  }

  /** `d[k] = v`: replaces the value of an existing key in place, or appends a new item. */
  function Put<V>(d: Dict<V>, k: string, v: V): (r: Dict<V>)
    ensures HasKey(d, k) ==> |r| == |d| && forall i :: 0 <= i < |d| ==> r[i].0 == d[i].0
    ensures !HasKey(d, k) ==> r == d + [(k, v)]
  {
    if d == [] then [(k, v)]
    else if d[0].0 == k then [(k, v)] + d[1..]
    else
      HasKeyTail(d, k);
      [d[0]] + Put(d[1..], k, v)
  }

  /** Every item after `d[k] = v` is an item of `d` or the new one. */
  lemma {:induction false} PutItems<V>(d: Dict<V>, k: string, v: V)
    ensures forall x :: x in Put(d, k, v) ==> x in d || x == (k, v)
  {
    if d != [] && d[0].0 != k {
      PutItems(d[1..], k, v);
    }
  }

  lemma HasKeyTail<V>(d: Dict<V>, k: string)
    requires d != [] && d[0].0 != k
    ensures HasKey(d, k) <==> HasKey(d[1..], k)
  {
    if HasKey(d, k) {
      var i :| 0 <= i < |d| && d[i].0 == k;
      assert d[1..][i - 1] == d[i];
    }
    if HasKey(d[1..], k) {
      var i :| 0 <= i < |d[1..]| && d[1..][i].0 == k;
      assert d[i + 1] == d[1..][i];
    }
  }

  /** After `d[k] = v`, `k` looks up `v` and every other key what it did before. */
  lemma {:induction false} PutGet<V>(d: Dict<V>, k: string, v: V, j: string)
    ensures Get(Put(d, k, v), j) == if j == k then Some(v) else Get(d, j)
  {
    if d != [] && d[0].0 != k {
      PutGet(d[1..], k, v, j);
    }
  }

  /** Assigning keeps every key once. */
  lemma PutDistinct<V>(d: Dict<V>, k: string, v: V)
    requires DistinctKeys(d)
    ensures DistinctKeys(Put(d, k, v))
  {
    var r := Put(d, k, v);
    forall i, j | 0 <= i < j < |r| ensures r[i].0 != r[j].0 {
      if !HasKey(d, k) && j == |d| {
        assert r[j].0 == k;
      }
    }
  }

  /** `list(d.values())`. */
  function Values<V>(d: Dict<V>): (vs: seq<V>)
    ensures |vs| == |d|
    ensures forall i :: 0 <= i < |d| ==> vs[i] == d[i].1
  {
    seq(|d|, i requires 0 <= i < |d| => d[i].1)
  }

  /** A dictionary has as many keys as items. */
  lemma {:induction false} KeySetSize<V>(d: Dict<V>)
    requires DistinctKeys(d)
    ensures |KeySet(d)| == |d|
    decreases |d|
  {
    if d != [] {
      var front := d[..|d| - 1];
      KeySetSize(front);
      assert KeySet(d) == KeySet(front) + {d[|d| - 1].0} by {
        forall x | x in KeySet(d) ensures x in KeySet(front) + {d[|d| - 1].0} {
          var i :| 0 <= i < |d| && d[i].0 == x;
          if i < |d| - 1 { assert front[i] == d[i]; }
        }
        forall x | x in KeySet(front) ensures x in KeySet(d) {
          var i :| 0 <= i < |front| && front[i].0 == x;
          assert d[i] == front[i];
        }
        assert d[|d| - 1].0 in KeySet(d);
      }
      assert d[|d| - 1].0 !in KeySet(front);
    }
  }

  /**
   * Two dictionaries of one size, the keys of the first all keys of the
   * second, have the same keys.
   */
  lemma SameKeys<V, W>(a: Dict<V>, b: Dict<W>)
    requires DistinctKeys(a) && DistinctKeys(b) && |a| == |b|
    requires forall i :: 0 <= i < |a| ==> HasKey(b, a[i].0)
    ensures forall j :: 0 <= j < |b| ==> HasKey(a, b[j].0)
  {
    KeySetSize(a);
    KeySetSize(b);
    var ka, kb := KeySet(a), KeySet(b);
    assert ka <= kb by {
      forall x | x in ka ensures x in kb {
        var i :| 0 <= i < |a| && a[i].0 == x;
        var j :| 0 <= j < |b| && b[j].0 == x;
      }
    }
    assert ka * kb == ka && ka + kb == kb && ka - kb == {};
    assert |kb - ka| + |ka - kb| + |ka * kb| == |ka + kb|;
    assert |kb - ka| == 0;
    forall j | 0 <= j < |b| ensures HasKey(a, b[j].0) {
      assert b[j].0 in kb;
      assert b[j].0 in ka;
    }
  }

  /** `d.update(e)`: every item of `e`, in order, assigned into `d`. */
  function Update<V>(d: Dict<V>, e: Dict<V>): (r: Dict<V>)
    decreases |e|
  {
    if e == [] then d else Put(Update(d, e[..|e| - 1]), e[|e| - 1].0, e[|e| - 1].1)
  }

  /** After `d.update(e)` a key of `e` looks up its value in `e`, any other key its value in `d`. */
  lemma {:induction false} UpdateGet<V>(d: Dict<V>, e: Dict<V>, k: string)
    requires DistinctKeys(e)
    ensures Get(Update(d, e), k) == if HasKey(e, k) then Get(e, k) else Get(d, k)
    decreases |e|
  {
    if e != [] {
      var front, last := e[..|e| - 1], e[|e| - 1];
      DistinctFront(e);
      UpdateGet(d, front, k);
      PutGet(Update(d, front), last.0, last.1, k);
      if k == last.0 {
        GetAt(e, |e| - 1);
      } else {
        GetFront(e, k);
      }
    }
  }

  /** A key other than the last looks up the same value with or without the last item. */
  lemma GetFront<V>(e: Dict<V>, k: string)
    requires e != [] && DistinctKeys(e) && k != e[|e| - 1].0
    ensures HasKey(e, k) <==> HasKey(e[..|e| - 1], k)
    ensures Get(e, k) == Get(e[..|e| - 1], k)
  {
    var front := e[..|e| - 1];
    HasKeyLast(e, k);
    DistinctFront(e);
    if HasKey(front, k) {
      var i :| 0 <= i < |front| && front[i].0 == k;
      GetAt(front, i);
      assert e[i] == front[i];
      GetAt(e, i);
    }
  }

  /** The keys after `d.update(e)`: those of `d`, then those of `e` that `d` lacks. */
  lemma {:induction false} UpdateHasKey<V>(d: Dict<V>, e: Dict<V>, k: string)
    ensures HasKey(Update(d, e), k) <==> HasKey(d, k) || HasKey(e, k)
    decreases |e|
  {
    if e != [] {
      var front, last := e[..|e| - 1], e[|e| - 1];
      UpdateHasKey(d, front, k);
      PutGet(Update(d, front), last.0, last.1, k);
      HasKeyLast(e, k);
    }
  }

  /** A key of a dictionary is a key of all but its last item, or the last key. */
  lemma HasKeyLast<V>(e: Dict<V>, k: string)
    requires e != []
    ensures HasKey(e, k) <==> HasKey(e[..|e| - 1], k) || e[|e| - 1].0 == k
  {
    var front := e[..|e| - 1];
    if HasKey(e, k) {
      var i :| 0 <= i < |e| && e[i].0 == k;
      if i < |front| { assert front[i] == e[i]; }
    }
    if HasKey(front, k) {
      var i :| 0 <= i < |front| && front[i].0 == k;
      assert e[i] == front[i];
    }
  }

  /** `d[k].append(v)` on a `defaultdict(list)`: a missing key starts from the empty list. */
  function Extend<V>(d: Dict<seq<V>>, k: string, vs: seq<V>): (r: Dict<seq<V>>)
  {
    Put(d, k, Get(d, k).GetOr([]) + vs)
  }

  /** `d[k].extend(vs)` looks up the extended list under k and leaves the other keys alone. */
  lemma ExtendGet<V>(d: Dict<seq<V>>, k: string, vs: seq<V>, j: string)
    ensures Get(Extend(d, k, vs), j) == if j == k then Some(Get(d, k).GetOr([]) + vs) else Get(d, j)
  {
    PutGet(d, k, Get(d, k).GetOr([]) + vs, j);
  }

  /** The keys of a dictionary: those of all but its last item, and the last key. */
  lemma HasKeyFront<V>(d: Dict<V>, k: string)
    requires d != []
    ensures HasKey(d, k) <==> HasKey(d[..|d| - 1], k) || d[|d| - 1].0 == k
  {
    var front := d[..|d| - 1];
    if HasKey(d, k) {
      var i :| 0 <= i < |d| && d[i].0 == k;
      if i < |front| { assert front[i] == d[i]; }
    }
    if HasKey(front, k) {
      var i :| 0 <= i < |front| && front[i].0 == k;
      assert d[i] == front[i];
    }
  }

  /** All but the last item of a dictionary form a dictionary without the last key. */
  lemma DistinctFront<V>(d: Dict<V>)
    requires d != [] && DistinctKeys(d)
    ensures DistinctKeys(d[..|d| - 1]) && !HasKey(d[..|d| - 1], d[|d| - 1].0)
  {
    var front := d[..|d| - 1];
    assert forall i :: 0 <= i < |front| ==> front[i] == d[i];
  }
}
