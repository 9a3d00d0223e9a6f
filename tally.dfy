/** A counting dictionary as a JavaScript object literal behaves under
    `counts[k] = (counts[k] || 0) + 1`: one entry per key, keys kept in the
    order they were first counted. This holds for keys that are not names
    of `Object.prototype` properties: an object literal inherits those, so
    `constructor` starts from a function (and its count turns into a string)
    and an assignment to `__proto__` stores nothing. */
module Tally {
  import opened Prelude
  import opened Sorting

  datatype Entry<K> = Entry(key: K, count: nat)

  function Keys<K>(t: seq<Entry<K>>): (r: seq<K>)
    ensures |r| == |t|
    ensures forall i :: 0 <= i < |t| ==> r[i] == t[i].key
  {
    seq(|t|, i requires 0 <= i < |t| => t[i].key)
  }

  /** `counts[k] || 0`. */
  function CountOf<K(==)>(t: seq<Entry<K>>, k: K): nat
  {
    if t == [] then 0 else if t[0].key == k then t[0].count else CountOf(t[1..], k)
  }

  /** `counts[k] = (counts[k] || 0) + 1`. */
  function Increment<K(==)>(t: seq<Entry<K>>, k: K): (r: seq<Entry<K>>)
    ensures k in Keys(t) ==> Keys(r) == Keys(t)
    ensures k !in Keys(t) ==> Keys(r) == Keys(t) + [k]
  {
    if t == [] then [Entry(k, 1)]
    else if t[0].key == k then [Entry(k, t[0].count + 1)] + t[1..]
    else
      assert Keys(t)[1..] == Keys(t[1..]);
      [t[0]] + Increment(t[1..], k)
  }

  /** Incrementing one key adds one to its count and leaves every other count alone. */
  lemma {:induction false} IncrementCount<K>(t: seq<Entry<K>>, k: K, x: K)
    ensures CountOf(Increment(t, k), x) == CountOf(t, x) + (if x == k then 1 else 0)
  {
    if t != [] && t[0].key != k {
      IncrementCount(t[1..], k, x);
      assert ([t[0]] + Increment(t[1..], k))[1..] == Increment(t[1..], k);
    } else if t != [] {
      assert ([Entry(k, t[0].count + 1)] + t[1..])[1..] == t[1..];
    }
  }

  /** The distinct elements of `s`, in order of first occurrence. */
  function Distinct<K(==)>(s: seq<K>): (r: seq<K>)
    ensures NoDuplicates(r)
    ensures forall i :: 0 <= i < |r| ==> r[i] in s
    ensures forall i :: 0 <= i < |s| ==> s[i] in r
  {
    if s == [] then []
    else
      var d := Distinct(s[..|s| - 1]);
      assert s == s[..|s| - 1] + [s[|s| - 1]];
      if s[|s| - 1] in d then d else d + [s[|s| - 1]]
  }

  /** The tally of `s`, counted left to right as `forEach` visits it. */
  function TallyOf<K(==)>(s: seq<K>): seq<Entry<K>>
  {
    if s == [] then [] else Increment(TallyOf(s[..|s| - 1]), s[|s| - 1])
  }

  /** The tally has one entry per distinct element, in order of first
      occurrence, and each count is the number of occurrences. */
  lemma TallyCounts<K>(s: seq<K>)
    ensures Keys(TallyOf(s)) == Distinct(s)
    ensures forall x :: CountOf(TallyOf(s), x) == multiset(s)[x]
  {
    TallyKeys(s);
    forall x ensures CountOf(TallyOf(s), x) == multiset(s)[x] {
      TallyCountOf(s, x);
    }
  }

  lemma {:induction false} TallyKeys<K>(s: seq<K>)
    ensures Keys(TallyOf(s)) == Distinct(s)
  {
    if s != [] {
      TallyKeys(s[..|s| - 1]);
    }
  }

  lemma {:induction false} TallyCountOf<K>(s: seq<K>, x: K)
    ensures CountOf(TallyOf(s), x) == multiset(s)[x]
  {
    if s != [] {
      var init, last := s[..|s| - 1], s[|s| - 1];
      assert multiset(s)[x] == multiset(init)[x] + (if x == last then 1 else 0) by {
        assert s == init + [last];
      }
      assert CountOf(TallyOf(s), x) == CountOf(TallyOf(init), x) + (if x == last then 1 else 0) by {
        IncrementCount(TallyOf(init), last, x);
      }
      TallyCountOf(init, x);
    }
  }

  /** Every entry of a tally has a count of at least one, and it is the count
      `CountOf` reads for its key. */
  lemma {:induction false} TallyEntries<K>(s: seq<K>)
    ensures forall i :: 0 <= i < |TallyOf(s)| ==>
      TallyOf(s)[i].count >= 1 && TallyOf(s)[i].count == CountOf(TallyOf(s), TallyOf(s)[i].key)
  {
    if s != [] {
      var init := s[..|s| - 1];
      TallyEntries(init);
      TallyCounts(init);
      IncrementEntries(TallyOf(init), s[|s| - 1]);
    }
  }

  /** An entry of the tally of `s` names an element of `s` with its number
      of occurrences. */
  lemma TallyEntry<K>(s: seq<K>, e: Entry<K>)
    requires e in TallyOf(s)
    ensures e.key in s && e.count >= 1 && e.count == multiset(s)[e.key]
  {
    var t := TallyOf(s);
    TallyCounts(s);
    TallyEntries(s);
    var k :| 0 <= k < |t| && t[k] == e;
    assert Keys(t)[k] == e.key;
  }

  predicate WellCounted<K(==)>(t: seq<Entry<K>>)
  {
    NoDuplicates(Keys(t))
    && forall i :: 0 <= i < |t| ==> t[i].count >= 1 && t[i].count == CountOf(t, t[i].key)
  }

  lemma {:induction false} IncrementEntries<K>(t: seq<Entry<K>>, k: K)
    requires WellCounted(t)
    ensures WellCounted(Increment(t, k))
  {
    var r := Increment(t, k);
    if k in Keys(t) {
      assert Keys(r) == Keys(t);
    } else {
      assert Keys(r) == Keys(t) + [k];
      assert NoDuplicates(Keys(r)) by {
        forall i, j | 0 <= i < j < |Keys(r)| ensures Keys(r)[i] != Keys(r)[j] {
          if j == |t| {
            assert Keys(r)[i] == Keys(t)[i];
          }
        }
      }
    }
    forall i | 0 <= i < |r| ensures r[i].count >= 1 && r[i].count == CountOf(r, r[i].key) {
      IncrementCount(t, k, r[i].key);
      IncrementEntryAt(t, k, i);
    }
  }

  /** Where an entry of the incremented tally came from. */
  lemma {:induction false} IncrementEntryAt<K>(t: seq<Entry<K>>, k: K, i: int)
    requires NoDuplicates(Keys(t))
    requires 0 <= i < |Increment(t, k)|
    ensures var r := Increment(t, k);
      (r[i].key == k && r[i].count == CountOf(t, k) + 1)
      || (r[i].key != k && i < |t| && r[i] == t[i])
    decreases |t|
  {
    if t != [] && t[0].key == k && i > 0 {
      assert Keys(t)[0] != Keys(t)[i];
    } else if t != [] && t[0].key != k && i > 0 {
      assert Keys(t[1..]) == Keys(t)[1..];
      NoDuplicatesTail(Keys(t));
      IncrementEntryAt(t[1..], k, i - 1);
      assert Increment(t, k)[i] == Increment(t[1..], k)[i - 1];
    }
  }

  lemma NoDuplicatesTail<T>(s: seq<T>)
    requires s != [] && NoDuplicates(s)
    ensures NoDuplicates(s[1..])
  {
    forall a, b | 0 <= a < b < |s[1..]| ensures s[1..][a] != s[1..][b] {
      assert s[1..][a] == s[a + 1] && s[1..][b] == s[b + 1];
    }
  }

  /** Counting one more element increments the tally so far. */
  lemma TallyStep<K>(s: seq<K>, x: K)
    ensures TallyOf(s + [x]) == Increment(TallyOf(s), x)
  {
    assert (s + [x])[..|s|] == s;
  }

  // ---------------------------------------------------------------------
  // `Object.entries` on a dictionary keyed by strings

  /** A key JavaScript treats as an array index: the canonical decimal form of
      a number below 2^32 - 1. Such keys are enumerated first, in numeric order. */
  predicate IsArrayIndex(k: string)
  {
    |k| >= 1 && (forall i :: 0 <= i < |k| ==> IsDigit(k[i]))
    && (k[0] != '0' || |k| == 1) && DigitsValue(k) < 0xFFFF_FFFF
  }

  function IsIndexEntry(e: Entry<string>): bool
  {
    IsArrayIndex(e.key)
  }

  function IsNamedEntry(e: Entry<string>): bool
  {
    !IsArrayIndex(e.key)
  }

  /** Ascending numeric order, as a key for the descending sort. */
  function IndexOrder(e: Entry<string>): real
  {
    -(DigitsValue(e.key) as real)
  }

  /** `Object.entries(counts)`: array-index keys in ascending numeric order,
      then every other key in insertion order. */
  function Entries(t: seq<Entry<string>>): (r: seq<Entry<string>>)
    ensures multiset(r) == multiset(t)
    ensures |r| == |t|
  {
    var indexed := SortDescBy(Filter(t, IsIndexEntry), IndexOrder);
    FilterPartition(t, IsIndexEntry, IsNamedEntry);
    assert |multiset(indexed + Filter(t, IsNamedEntry))| == |multiset(t)|;
    indexed + Filter(t, IsNamedEntry)
  }

  /** Without array-index keys the entries come in insertion order. */
  lemma EntriesWithoutIndexKeys(t: seq<Entry<string>>)
    requires forall i :: 0 <= i < |t| ==> !IsArrayIndex(t[i].key)
    ensures Entries(t) == t
  {
    FilterAll(t, IsNamedEntry);
    FilterNone(t, IsIndexEntry);
  }

  lemma {:induction false} FilterNone<T>(s: seq<T>, p: T -> bool)
    requires forall i :: 0 <= i < |s| ==> !p(s[i])
    ensures Filter(s, p) == []
  {
    if s != [] {
      FilterNone(s[1..], p);
    }
  }

  /** Filtering by a predicate and by its negation splits the elements. */
  lemma {:induction false} FilterPartition<T>(s: seq<T>, p: T -> bool, q: T -> bool)
    requires forall i :: 0 <= i < |s| ==> q(s[i]) == !p(s[i])
    ensures multiset(Filter(s, p)) + multiset(Filter(s, q)) == multiset(s)
  {
    if s != [] {
      FilterPartition(s[1..], p, q);
      assert s == [s[0]] + s[1..];
    }
  }
}
