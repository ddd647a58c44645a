/**
 * The collection operations behind the handlers and pages: `Array.prototype.filter`,
 * MongoDB's `findOne` and `deleteOne` over a collection in natural (insertion) order,
 * projection, and `sort({ createdAt: -1 })`.
 */
module Sequences {
  import opened Wrappers

  /** `s.filter(p)`. */
  function Filter<T>(s: seq<T>, p: T -> bool): (r: seq<T>)
    ensures |r| <= |s|
    ensures forall x :: x in r ==> x in s && p(x)
  {
    if s == [] then [] else (if p(s[0]) then [s[0]] else []) + Filter(s[1..], p)
  }

  /** Every element of `s` that satisfies `p` is kept. */
  lemma {:induction false} FilterKeeps<T>(s: seq<T>, p: T -> bool, x: T)
    requires x in s && p(x)
    ensures x in Filter(s, p)
  {
    if s[0] != x {
      FilterKeeps(s[1..], p, x);
    }
  }

  /** Filtering distributes over concatenation: the kept elements stay in their original order. */
  lemma {:induction false} FilterAppend<T>(a: seq<T>, b: seq<T>, p: T -> bool)
    ensures Filter(a + b, p) == Filter(a, p) + Filter(b, p)
  {
    if a != [] {
      assert (a + b)[1..] == a[1..] + b;
      FilterAppend(a[1..], b, p);
    } else {
      assert a + b == b;
    }
  }

  /** When every element satisfies `p`, filtering returns the whole list. */
  lemma {:induction false} FilterAll<T>(s: seq<T>, p: T -> bool)
    requires forall i :: 0 <= i < |s| ==> p(s[i])
    ensures Filter(s, p) == s
  {
    if s != [] {
      FilterAll(s[1..], p);
    }
  }

  /** Filters that agree on every element of `s` select the same elements. */
  lemma {:induction false} FilterAgree<T>(s: seq<T>, p: T -> bool, q: T -> bool)
    requires forall i :: 0 <= i < |s| ==> p(s[i]) == q(s[i])
    ensures Filter(s, p) == Filter(s, q)
  {
    if s != [] {
      FilterAgree(s[1..], p, q);
    }
  }

  /** `findOne(filter)`: the first element of the collection that matches, if any. */
  function FindFirst<T>(s: seq<T>, p: T -> bool): (r: Option<T>)
    ensures r.Some? ==> r.value in s && p(r.value)
    ensures r.None? ==> forall i :: 0 <= i < |s| ==> !p(s[i])
  {
    if s == [] then None else if p(s[0]) then Some(s[0]) else FindFirst(s[1..], p)
  }

  /** Index of the first element that satisfies `p`, or `|s|` when none does. */
  function FirstMatch<T>(s: seq<T>, p: T -> bool): (k: nat)
    ensures k <= |s|
    ensures k < |s| ==> p(s[k])
    ensures forall j :: 0 <= j < k ==> !p(s[j])
  {
    if s == [] then 0 else if p(s[0]) then 0 else 1 + FirstMatch(s[1..], p)
  }

  /** `findOne` returns the element at the first matching index. */
  lemma {:induction false} FindFirstAtFirstMatch<T>(s: seq<T>, p: T -> bool)
    ensures FindFirst(s, p) == if FirstMatch(s, p) < |s| then Some(s[FirstMatch(s, p)]) else None
  {
    if s != [] && !p(s[0]) {
      FindFirstAtFirstMatch(s[1..], p);
    }
  }

  /** `deleteOne(filter)`: removes the first matching element, if any, and keeps the rest in order. */
  function RemoveFirst<T>(s: seq<T>, p: T -> bool): (r: seq<T>)
    ensures |r| == if exists i :: 0 <= i < |s| && p(s[i]) then |s| - 1 else |s|
    ensures (forall i :: 0 <= i < |s| ==> !p(s[i])) ==> r == s
    ensures forall k :: 0 <= k < |s| && p(s[k]) && (forall j :: 0 <= j < k ==> !p(s[j])) ==>
              r == s[..k] + s[k + 1..]
  {
    var k := FirstMatch(s, p);
    if k < |s| then s[..k] + s[k + 1..] else s
  }

  /** `deleteOne` deletes nothing it was not asked to, and adds nothing. */
  lemma RemoveFirstElements<T>(s: seq<T>, p: T -> bool)
    ensures forall x :: x in RemoveFirst(s, p) ==> x in s
    ensures forall x :: x in s && !p(x) ==> x in RemoveFirst(s, p)
  {
    var k := FirstMatch(s, p);
    var r := RemoveFirst(s, p);
    if k < |s| {
      assert forall i :: 0 <= i < |r| ==> r[i] == s[if i < k then i else i + 1];
      forall x | x in s && !p(x) ensures x in r {
        var i :| 0 <= i < |s| && s[i] == x;
        assert i != k;
        assert r[if i < k then i else i - 1] == x;
      }
    }
  }

  /** Projection of every element, in order. */
  function Map<T, U>(s: seq<T>, f: T -> U): (r: seq<U>)
    ensures |r| == |s|
    ensures forall i :: 0 <= i < |s| ==> r[i] == f(s[i])
  {
    seq(|s|, i requires 0 <= i < |s| => f(s[i]))
  }

  /** Sequences holding the same multiset hold the same elements. */
  lemma SameElements<T>(a: seq<T>, b: seq<T>)
    requires multiset(a) == multiset(b)
    ensures forall x :: x in a <==> x in b
  {
    forall x ensures x in a <==> x in b {
      assert x in a <==> x in multiset(a);
      assert x in b <==> x in multiset(b);
    }
  }

  /** Ordered by `key` descending, as `sort({ createdAt: -1 })` promises. */
  predicate NewestFirst<T>(s: seq<T>, key: T -> int) {
    forall i, j :: 0 <= i < j < |s| ==> key(s[i]) >= key(s[j])
  }

  /** Inserts `x` into a newest-first list, before the first element not newer than it. */
  function Insert<T>(x: T, s: seq<T>, key: T -> int): (r: seq<T>)
    requires NewestFirst(s, key)
    ensures NewestFirst(r, key)
    ensures |r| == |s| + 1 && (r[0] == x || (s != [] && r[0] == s[0]))
    ensures multiset(r) == multiset(s) + multiset{x}
  {
    if s == [] || key(x) >= key(s[0]) then
      [x] + s
    else
      var rest := Insert(x, s[1..], key);
      assert key(s[0]) >= key(rest[0]);
      assert s == [s[0]] + s[1..];
      assert multiset([s[0]] + rest) == multiset{s[0]} + multiset(rest);
      [s[0]] + rest
  }

  /** A newest-first ordering of `s`: same elements, each as often, sorted by `key` descending. */
  function SortNewestFirst<T>(s: seq<T>, key: T -> int): (r: seq<T>)
    ensures NewestFirst(r, key)
    ensures multiset(r) == multiset(s)
  {
    if s == [] then []
    else
      assert s == [s[0]] + s[1..];
      Insert(s[0], SortNewestFirst(s[1..], key), key)
  }
}
