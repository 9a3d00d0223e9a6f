/** The sorts the components call: `sort((a, b) => a - b)` on numbers and
    `sort((a, b) => key(b) - key(a))` on records. JavaScript's sort is stable;
    both insertion sorts below are too. */
module Sorting {
  import opened Prelude

  ghost predicate SortedAsc(s: seq<real>)
  {
    forall i, j :: 0 <= i < j < |s| ==> s[i] <= s[j]
  }

  ghost predicate SortedDescBy<T>(s: seq<T>, key: T -> real)
  {
    forall i, j :: 0 <= i < j < |s| ==> key(s[i]) >= key(s[j])
  }

  /** Insert `x` into an ascending sequence, after every element not above it. */
  function InsertAsc(x: real, s: seq<real>): (r: seq<real>)
    requires SortedAsc(s)
    ensures SortedAsc(r)
    ensures multiset(r) == multiset(s) + multiset{x}
  {
    if s == [] then [x]
    else if x < s[|s| - 1] then
      var init, last := s[..|s| - 1], s[|s| - 1];
      var rest := InsertAsc(x, init);
      assert s == init + [last];
      RestBelowLast(x, init, last, rest);
      AppendAbove(rest, last);
      rest + [last]
    else
      AppendAbove(s, x);
      s + [x]
  }

  /** Appending an element at least as large as every element keeps the order. */
  lemma AppendAbove(s: seq<real>, x: real)
    requires SortedAsc(s)
    requires s != [] ==> s[|s| - 1] <= x
    ensures SortedAsc(s + [x])
  {
    var r := s + [x];
    forall i, j | 0 <= i < j < |r| ensures r[i] <= r[j] {
      if j == |s| {
        assert s[i] <= s[|s| - 1];
      }
    }
  }

  lemma RestBelowLast(x: real, init: seq<real>, last: real, rest: seq<real>)
    requires SortedAsc(init + [last])
    requires x < last
    requires multiset(rest) == multiset(init) + multiset{x}
    ensures SortedAsc(rest) ==> rest != [] ==> rest[|rest| - 1] <= last
  {
    if rest != [] {
      var i := |rest| - 1;
      assert rest[i] in multiset(init) + multiset{x};
      if rest[i] in multiset(init) {
        var j :| 0 <= j < |init| && init[j] == rest[i];
        assert (init + [last])[j] == rest[i] && (init + [last])[|init|] == last;
      }
    }
  }

  /** `[...s].sort((a, b) => a - b)`. */
  function SortAsc(s: seq<real>): (r: seq<real>)
    ensures SortedAsc(r)
    ensures multiset(r) == multiset(s)
    ensures |r| == |s|
  {
    if s == [] then []
    else
      assert s == s[..|s| - 1] + [s[|s| - 1]];
      var r := InsertAsc(s[|s| - 1], SortAsc(s[..|s| - 1]));
      assert |r| == |multiset(r)|;
      r
  }

  function InsertDescBy<T>(x: T, s: seq<T>, key: T -> real): (r: seq<T>)
    requires SortedDescBy(s, key)
    ensures SortedDescBy(r, key)
    ensures multiset(r) == multiset(s) + multiset{x}
  {
    if s == [] then [x]
    else if key(x) > key(s[|s| - 1]) then
      var init, last := s[..|s| - 1], s[|s| - 1];
      var rest := InsertDescBy(x, init, key);
      assert s == init + [last];
      RestAboveLast(x, init, last, rest, key);
      AppendBelow(rest, last, key);
      rest + [last]
    else
      AppendBelow(s, x, key);
      s + [x]
  }

  /** Appending an element whose key is at most every key keeps the order. */
  lemma AppendBelow<T>(s: seq<T>, x: T, key: T -> real)
    requires SortedDescBy(s, key)
    requires s != [] ==> key(s[|s| - 1]) >= key(x)
    ensures SortedDescBy(s + [x], key)
  {
    var r := s + [x];
    forall i, j | 0 <= i < j < |r| ensures key(r[i]) >= key(r[j]) {
      if j == |s| {
        assert key(s[i]) >= key(s[|s| - 1]);
      }
    }
  }

  lemma RestAboveLast<T>(x: T, init: seq<T>, last: T, rest: seq<T>, key: T -> real)
    requires SortedDescBy(init + [last], key)
    requires key(x) > key(last)
    requires multiset(rest) == multiset(init) + multiset{x}
    ensures SortedDescBy(rest, key) ==> rest != [] ==> key(rest[|rest| - 1]) >= key(last)
  {
    if rest != [] {
      var i := |rest| - 1;
      assert rest[i] in multiset(init) + multiset{x};
      if rest[i] in multiset(init) {
        var j :| 0 <= j < |init| && init[j] == rest[i];
        assert (init + [last])[j] == rest[i] && (init + [last])[|init|] == last;
      }
    }
  }

  /** `[...s].sort((a, b) => key(b) - key(a))`: largest key first. */
  function SortDescBy<T>(s: seq<T>, key: T -> real): (r: seq<T>)
    ensures SortedDescBy(r, key)
    ensures multiset(r) == multiset(s)
    ensures |r| == |s|
  {
    if s == [] then []
    else
      assert s == s[..|s| - 1] + [s[|s| - 1]];
      var r := InsertDescBy(s[|s| - 1], SortDescBy(s[..|s| - 1], key), key);
      assert |r| == |multiset(r)|;
      r
  }

  /** The elements whose key is `v`. */
  function KeyIs<T>(key: T -> real, v: real): T -> bool
  {
    e => key(e) == v
  }

  /** Inserting keeps the elements of each key in their order, `x` after the
      ones already there. */
  lemma {:induction false} InsertDescByStable<T>(x: T, s: seq<T>, key: T -> real, v: real)
    requires SortedDescBy(s, key)
    ensures Filter(InsertDescBy(x, s, key), KeyIs(key, v)) == Filter(s + [x], KeyIs(key, v))
  {
    var p := KeyIs(key, v);
    if s == [] {
      assert s + [x] == [x];
    } else if key(x) > key(s[|s| - 1]) {
      var init, last := s[..|s| - 1], s[|s| - 1];
      assert s == init + [last];
      var rest := InsertDescBy(x, init, key);
      assert InsertDescBy(x, s, key) == rest + [last];
      InsertDescByStable(x, init, key, v);
      FilterSwap(init, [x], [last], p);
      calc {
        Filter(rest + [last], p);
        { FilterAppend(rest, [last], p); }
        Filter(rest, p) + Filter([last], p);
        Filter(init + [x], p) + Filter([last], p);
        { FilterAppend(init, [x], p); }
        Filter(init, p) + Filter([x], p) + Filter([last], p);
        Filter(init, p) + Filter([last], p) + Filter([x], p);
        { FilterAppend(init, [last], p); }
        Filter(s, p) + Filter([x], p);
        { FilterAppend(s, [x], p); }
        Filter(s + [x], p);
      }
    }
  }

  /** Filtered parts commute when one of them is empty. */
  lemma FilterSwap<T>(a: seq<T>, b: seq<T>, c: seq<T>, p: T -> bool)
    requires Filter(b, p) == [] || Filter(c, p) == []
    ensures Filter(a, p) + Filter(b, p) + Filter(c, p) == Filter(a, p) + Filter(c, p) + Filter(b, p)
  {
  }

  /** The sort is stable: elements with equal keys keep their order. */
  lemma {:induction false} SortDescByStable<T>(s: seq<T>, key: T -> real, v: real)
    ensures Filter(SortDescBy(s, key), KeyIs(key, v)) == Filter(s, KeyIs(key, v))
  {
    if s != [] {
      var init, x := s[..|s| - 1], s[|s| - 1];
      assert s == init + [x];
      var p := KeyIs(key, v);
      SortDescByStable(init, key, v);
      InsertDescByStable(x, SortDescBy(init, key), key, v);
      FilterAppend(SortDescBy(init, key), [x], p);
      FilterAppend(init, [x], p);
    }
  }

  /** Elements of a permutation are the elements of the original. */
  lemma PermutationMembers<T>(a: seq<T>, b: seq<T>, i: nat)
    requires multiset(a) == multiset(b) && i < |a|
    ensures a[i] in b
  {
    assert a[i] in multiset(a);
  }
}
