/**
 * Sequence helpers shared by every component: the `Option` wrapper that stands
 * for JavaScript's `undefined`, order-preserving filtering (`Array.prototype.filter`),
 * first-occurrence de-duplication (`[...new Set(xs)]`, and the insertion order of
 * `Object.keys`), and the counting facts the grouping code relies on.
 *
 * Functions that a left-to-right loop computes are defined by recursion on the
 * LAST element, so that a loop invariant `r == F(s[..i])` steps without glue.
 */
module Seqs {

  datatype Option<+T> = None | Some(value: T)

  function Last<T(!new)>(s: seq<T>): T
    requires |s| > 0
  {
    s[|s| - 1]
  }

  function Init<T(!new)>(s: seq<T>): seq<T>
    requires |s| > 0
  {
    s[..|s| - 1]
  }

  lemma InitOfSnoc<T(!new)>(s: seq<T>, x: T)
    ensures Init(s + [x]) == s && Last(s + [x]) == x
  {
    assert (s + [x])[..|s|] == s;
  }

  /** The elements of `s` that satisfy `p`, in their original order. */
  function Filter<T(!new)>(s: seq<T>, p: T -> bool): (r: seq<T>)
    ensures |r| <= |s|
    ensures forall x :: x in r <==> x in s && p(x)
  {
    if s == [] then []
    else Filter(Init(s), p) + (if p(Last(s)) then [Last(s)] else [])
  }

  /** A filter keeps every copy of an element that passes and no copy of one that fails. */
  lemma {:induction false} FilterCounts<T(!new)>(s: seq<T>, p: T -> bool)
    ensures forall x :: multiset(Filter(s, p))[x] == if p(x) then multiset(s)[x] else 0
    decreases |s|
  {
    if s != [] {
      var prefix, y := Init(s), Last(s);
      FilterCounts(prefix, p);
      assert s == prefix + [y];
      assert multiset(s) == multiset(prefix) + multiset{y};
      assert Filter(s, p) == Filter(prefix, p) + (if p(y) then [y] else []);
    }
  }

  /** The predicate "the key of x is k". */
  function KeyIs<T(!new), K(==,!new)>(key: T -> K, k: K): T -> bool
  {
    x => key(x) == k
  }

  /** Applying `KeyIs(key, k)` compares the key with k. */
  lemma KeyIsApply<T(!new), K(!new)>(key: T -> K, k: K, x: T)
    ensures KeyIs(key, k)(x) <==> key(x) == k
  {
  }

  /** The negation of a predicate. */
  function Not<T(!new)>(p: T -> bool): T -> bool
  {
    x => !p(x)
  }

  lemma FilterSnoc<T(!new)>(s: seq<T>, x: T, p: T -> bool)
    ensures Filter(s + [x], p) == Filter(s, p) + (if p(x) then [x] else [])
  {
    InitOfSnoc(s, x);
  }

  /** A filter whose predicate holds everywhere keeps the whole sequence. */
  lemma {:induction false} FilterAll<T(!new)>(s: seq<T>, p: T -> bool)
    requires forall i :: 0 <= i < |s| ==> p(s[i])
    ensures Filter(s, p) == s
    decreases |s|
  {
    if s != [] {
      var prefix, x := Init(s), Last(s);
      assert s == prefix + [x];
      assert forall i :: 0 <= i < |prefix| ==> prefix[i] == s[i];
      FilterAll(prefix, p);
      FilterSnoc(prefix, x, p);
      assert p(x);
    }
  }

  /** A predicate and its negation split a sequence: their filters' lengths add up. */
  lemma {:induction false} FilterSplit<T(!new)>(s: seq<T>, p: T -> bool)
    ensures |Filter(s, p)| + |Filter(s, Not(p))| == |s|
    decreases |s|
  {
    if s != [] {
      FilterSplit(Init(s), p);
    }
  }

  /** `idx` picks, in strictly increasing positions of b, the elements of a. */
  ghost predicate Embeds<T(!new)>(idx: seq<int>, a: seq<T>, b: seq<T>)
  {
    && |idx| == |a|
    && (forall k :: 0 <= k < |idx| ==> 0 <= idx[k] < |b| && b[idx[k]] == a[k])
    && (forall k, l :: 0 <= k < l < |idx| ==> idx[k] < idx[l])
  }

  /** a is an order-preserving subsequence of b. */
  ghost predicate IsSubsequence<T(!new)>(a: seq<T>, b: seq<T>)
  {
    exists idx :: Embeds(idx, a, b)
  }

  lemma {:induction false} FilterEmbedding<T(!new)>(s: seq<T>, p: T -> bool) returns (idx: seq<int>)
    ensures Embeds(idx, Filter(s, p), s)
    ensures forall k :: 0 <= k < |idx| ==> idx[k] < |s|
    decreases |s|
  {
    if s == [] {
      idx := [];
    } else {
      var prev := FilterEmbedding(Init(s), p);
      if p(Last(s)) {
        idx := prev + [|s| - 1];
      } else {
        idx := prev;
      }
    }
  }

  /** Filtering keeps an order-preserving subsequence. */
  lemma FilterIsSubsequence<T(!new)>(s: seq<T>, p: T -> bool)
    ensures IsSubsequence(Filter(s, p), s)
  {
    var idx := FilterEmbedding(s, p);
  }

  lemma SubsequenceRefl<T(!new)>(s: seq<T>)
    ensures IsSubsequence(s, s)
  {
    var idx := seq(|s|, i => i);
    assert Embeds(idx, s, s);
  }

  lemma SubsequenceTrans<T(!new)>(a: seq<T>, b: seq<T>, c: seq<T>)
    requires IsSubsequence(a, b) && IsSubsequence(b, c)
    ensures IsSubsequence(a, c)
  {
    var i1 :| Embeds(i1, a, b);
    var i2 :| Embeds(i2, b, c);
    var idx := seq(|a|, k requires 0 <= k < |a| => i2[i1[k]]);
    assert Embeds(idx, a, c);
  }

  ghost predicate NoDup<T(!new)>(s: seq<T>)
  {
    forall i, j :: 0 <= i < j < |s| ==> s[i] != s[j]
  }

  /**
   * The distinct keys of s, built by a left-to-right pass that appends each key
   * not seen before, as `[...new Set(s.map(key))]` does; the contract states
   * that no key repeats and that exactly the keys of s occur.
   */
  function DistinctKeys<T(!new), K(==,!new)>(s: seq<T>, key: T -> K): (r: seq<K>)
    ensures NoDup(r)
    ensures forall k :: k in r <==> exists x :: x in s && key(x) == k
  {
    if s == [] then []
    else
      var prev := DistinctKeys(Init(s), key);
      assert forall x :: x in s <==> x in Init(s) || x == Last(s) by {
        assert s == Init(s) + [Last(s)];
      }
      if key(Last(s)) in prev then prev else prev + [key(Last(s))]
  }

  /** The elements of s, as a set. */
  function Elements<T(!new)>(s: seq<T>): set<T>
  {
    set x | x in s
  }

  /** A sequence without duplicates has as many elements as its set. */
  lemma {:induction false} NoDupCard<T(!new)>(s: seq<T>)
    requires NoDup(s)
    ensures |Elements(s)| == |s|
    decreases |s|
  {
    if s != [] {
      var prefix, x := Init(s), Last(s);
      assert s == prefix + [x];
      NoDupCard(prefix);
      assert Elements(s) == Elements(prefix) + {x};
      assert x !in Elements(prefix);
    }
  }

  /** How many times v occurs in s. */
  function Occurrences<K(==,!new)>(s: seq<K>, v: K): nat
  {
    if s == [] then 0 else Occurrences(Init(s), v) + (if Last(s) == v then 1 else 0)
  }

  lemma {:induction false} OccurrencesOnce<K(!new)>(s: seq<K>, v: K)
    requires NoDup(s)
    ensures Occurrences(s, v) == if v in s then 1 else 0
    decreases |s|
  {
    if s != [] {
      assert s == Init(s) + [Last(s)];
      OccurrencesOnce(Init(s), v);
    }
  }

  /** The sizes of the groups of s whose key is each of `keys`, summed. */
  function GroupSizes<T(!new), K(==,!new)>(keys: seq<K>, s: seq<T>, key: T -> K): nat
  {
    if keys == [] then 0
    else GroupSizes(Init(keys), s, key) + |Filter(s, KeyIs(key, Last(keys)))|
  }

  lemma {:induction false} GroupSizesSnoc<T(!new), K(!new)>(keys: seq<K>, s: seq<T>, x: T, key: T -> K)
    ensures GroupSizes(keys, s + [x], key) == GroupSizes(keys, s, key) + Occurrences(keys, key(x))
    decreases |keys|
  {
    if keys != [] {
      GroupSizesSnoc(Init(keys), s, x, key);
      FilterSnoc(s, x, KeyIs(key, Last(keys)));
    }
  }

  /**
   * Grouping by a key partitions a sequence: when the keys are distinct and
   * cover every element, the group sizes add up to the length of the sequence.
   */
  lemma {:induction false} GroupSizesPartition<T(!new), K(!new)>(keys: seq<K>, s: seq<T>, key: T -> K)
    requires NoDup(keys)
    requires forall i :: 0 <= i < |s| ==> key(s[i]) in keys
    ensures GroupSizes(keys, s, key) == |s|
    decreases |s|
  {
    if s == [] {
      GroupSizesEmpty(keys, key);
    } else {
      assert s == Init(s) + [Last(s)];
      GroupSizesPartition(keys, Init(s), key);
      GroupSizesSnoc(keys, Init(s), Last(s), key);
      OccurrencesOnce(keys, key(Last(s)));
    }
  }

  lemma {:induction false} GroupSizesEmpty<T(!new), K(!new)>(keys: seq<K>, key: T -> K)
    ensures GroupSizes(keys, [], key) == 0
    decreases |keys|
  {
    if keys != [] {
      GroupSizesEmpty(Init(keys), key);
    }
  }

  /** The first n elements of s, or all of s when it is shorter (`s.slice(0, n)`). */
  function Take<T(!new)>(s: seq<T>, n: nat): (r: seq<T>)
    ensures |r| <= n && |r| <= |s|
    ensures r == s[..|r|]
    ensures |s| <= n ==> r == s
  {
    if |s| <= n then s else s[..n]
  }

  function Min(a: int, b: int): int
  {
    if a <= b then a else b
  }
}
