/**
 * The Array.prototype operations the entity stores use on their cached
 * lists: findIndex, find, filter, "replace at the first matching index",
 * a stable sort by a numeric key in descending order, and slice(0, k).
 */
module ListOps {
  import opened Js

  /** `s.findIndex(m)`: the first index whose element satisfies `m`, or -1. */
  function FindIndex<T>(s: seq<T>, m: T -> bool): (i: int)
    ensures -1 <= i < |s|
    ensures 0 <= i ==> m(s[i]) && forall j :: 0 <= j < i ==> !m(s[j])
    ensures i == -1 <==> forall j :: 0 <= j < |s| ==> !m(s[j])
  {
    if s == [] then -1
    else if m(s[0]) then 0
    else
      var k := FindIndex(s[1..], m);
      if k == -1 then -1 else k + 1
  }

  /** `s.find(m)`: the first element satisfying `m`, or undefined. */
  function Find<T>(s: seq<T>, m: T -> bool): (r: Option<T>)
    ensures r.None? <==> forall j :: 0 <= j < |s| ==> !m(s[j])
    ensures r.Some? ==> exists i :: 0 <= i < |s| && s[i] == r.value && m(s[i]) &&
                                    forall j :: 0 <= j < i ==> !m(s[j])
  {
    var i := FindIndex(s, m);
    if i == -1 then None else Some(s[i])
  }

  /** `s.filter(p)`. */
  function Filter<T(!new)>(s: seq<T>, p: T -> bool): (r: seq<T>)
    ensures |r| <= |s|
    ensures forall x :: x in r <==> x in s && p(x)
  {
    if s == [] then []
    else if p(s[0]) then [s[0]] + Filter(s[1..], p)
    else Filter(s[1..], p)
  }

  /** A filter keeps every copy of the elements it accepts and none of the
      others. */
  lemma {:induction false} FilterMultiset<T(!new)>(s: seq<T>, p: T -> bool, x: T)
    ensures multiset(Filter(s, p))[x] == if p(x) then multiset(s)[x] else 0
  {
    if s != [] {
      FilterMultiset(s[1..], p, x);
      assert s == [s[0]] + s[1..];
      assert multiset(s) == multiset{s[0]} + multiset(s[1..]);
      if p(s[0]) {
        assert multiset(Filter(s, p)) == multiset{s[0]} + multiset(Filter(s[1..], p));
      }
    }
  }

  /** A filter keeps every copy of the elements it accepts, all at once. */
  lemma FilterMultisets<T(!new)>(s: seq<T>, p: T -> bool)
    ensures forall x :: multiset(Filter(s, p))[x] == if p(x) then multiset(s)[x] else 0
  {
    forall x
      ensures multiset(Filter(s, p))[x] == if p(x) then multiset(s)[x] else 0
    {
      FilterMultiset(s, p, x);
    }
  }

  /** A filter that rejects nothing is the identity. */
  lemma {:induction false} FilterKeepsAll<T(!new)>(s: seq<T>, p: T -> bool)
    requires forall i :: 0 <= i < |s| ==> p(s[i])
    ensures Filter(s, p) == s
  {
    if s != [] {
      FilterKeepsAll(s[1..], p);
    }
  }

  /** Number of elements satisfying `p`. */
  function Count<T>(s: seq<T>, p: T -> bool): (n: nat)
    ensures n <= |s|
  {
    if s == [] then 0 else (if p(s[0]) then 1 else 0) + Count(s[1..], p)
  }

  /** The length of a filter is the number of elements it keeps, and the
      elements it drops make up the difference. */
  lemma {:induction false} FilterLength<T(!new)>(s: seq<T>, p: T -> bool)
    ensures |Filter(s, p)| == Count(s, p)
    ensures |Filter(s, x => !p(x))| == |s| - Count(s, p)
  {
    if s != [] {
      FilterLength(s[1..], p);
    }
  }

  /** `s[s.findIndex(m)] = x` when the index is not -1; `s` otherwise. */
  function ReplaceFirst<T>(s: seq<T>, m: T -> bool, x: T): (r: seq<T>)
    ensures |r| == |s|
    ensures (forall j :: 0 <= j < |s| ==> !m(s[j])) ==> r == s
    ensures forall i :: 0 <= i < |s| && m(s[i]) && (forall j :: 0 <= j < i ==> !m(s[j])) ==>
              r == s[i := x]
  {
    var i := FindIndex(s, m);
    if i == -1 then s else s[i := x]
  }

  // ---------------------------------------------------------------------
  // [...s].sort((a, b) => key(b) - key(a)).slice(0, k)

  /** `s` is in descending order of `key`. */
  ghost predicate SortedDesc<T>(s: seq<T>, key: T -> int) {
    forall i, j :: 0 <= i < j < |s| ==> key(s[i]) >= key(s[j])
  }

  /** Inserts `x` in front of the first element whose key is not greater
      than `x`'s, so `x` precedes the elements with an equal key. */
  function Insert<T>(x: T, s: seq<T>, key: T -> int): (r: seq<T>)
    ensures multiset(r) == multiset(s) + multiset{x}
    ensures |r| == |s| + 1
  {
    if s == [] || key(x) >= key(s[0]) then [x] + s
    else
      assert s == [s[0]] + s[1..];
      [s[0]] + Insert(x, s[1..], key)
  }

  lemma {:induction false} InsertSorted<T>(x: T, s: seq<T>, key: T -> int)
    requires SortedDesc(s, key)
    ensures SortedDesc(Insert(x, s, key), key)
    ensures Insert(x, s, key) != [] && (Insert(x, s, key)[0] == x || Insert(x, s, key)[0] == s[0])
  {
    if s == [] || key(x) >= key(s[0]) {
    } else {
      InsertSorted(x, s[1..], key);
      var t := Insert(x, s[1..], key);
      assert forall j :: 0 <= j < |t| ==> key(s[0]) >= key(t[j]) by {
        forall j | 0 <= j < |t|
          ensures key(s[0]) >= key(t[j])
        {
          assert t[j] in multiset(t);
          assert t[j] in multiset(s[1..]) + multiset{x};
          if t[j] in multiset(s[1..]) {
            var k :| 1 <= k < |s| && s[k] == t[j];
          }
        }
      }
    }
  }

  /** A stable sort of `s` in descending order of `key` (the comparator
      `(a, b) => key(b) - key(a)` of the stores, under a stable sort). */
  function SortDesc<T>(s: seq<T>, key: T -> int): (r: seq<T>)
    ensures multiset(r) == multiset(s)
    ensures |r| == |s|
  {
    if s == [] then []
    else
      assert s == [s[0]] + s[1..];
      Insert(s[0], SortDesc(s[1..], key), key)
  }

  lemma {:induction false} SortDescSorted<T>(s: seq<T>, key: T -> int)
    ensures SortedDesc(SortDesc(s, key), key)
  {
    if s != [] {
      SortDescSorted(s[1..], key);
      InsertSorted(s[0], SortDesc(s[1..], key), key);
    }
  }

  function Min(a: int, b: int): int {
    if a <= b then a else b
  }

  /** `[...s].sort(byKeyDescending).slice(0, k)`: the `k` elements of `s`
      with the largest keys, largest first (all of `s` when it is shorter). */
  function Top<T(!new)>(s: seq<T>, key: T -> int, k: nat): (r: seq<T>)
    ensures |r| == Min(k, |s|)
    ensures SortedDesc(r, key)
    ensures multiset(r) <= multiset(s)
    ensures forall x, y :: x in multiset(s) - multiset(r) && y in r ==> key(x) <= key(y)
  {
    var t := SortDesc(s, key);
    SortDescSorted(s, key);
    var n := Min(k, |t|);
    SplitSorted(t, key, n);
    t[..n]
  }

  /** Cutting a sorted sequence at `n` leaves a sorted prefix whose keys are
      at least every key of the rest. */
  lemma SplitSorted<T>(t: seq<T>, key: T -> int, n: nat)
    requires SortedDesc(t, key) && n <= |t|
    ensures SortedDesc(t[..n], key)
    ensures multiset(t[..n]) <= multiset(t)
    ensures multiset(t) - multiset(t[..n]) == multiset(t[n..])
    ensures forall x, y :: x in multiset(t[n..]) && y in t[..n] ==> key(x) <= key(y)
  {
    assert t == t[..n] + t[n..];
    assert multiset(t) == multiset(t[..n]) + multiset(t[n..]);
    forall x, y | x in multiset(t[n..]) && y in t[..n]
      ensures key(x) <= key(y)
    {
      assert x in t[n..];
      var a :| n <= a < |t| && t[a] == x;
      var b :| 0 <= b < n && t[b] == y;
    }
  }
}
