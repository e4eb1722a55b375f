/** The read side of the collections: a filter, `sort({ createdAt: -1 })`
    and `limit(n)`, as functions over the stored sequence with a key. */
module Ordering {

  ghost predicate SortedDesc<T>(s: seq<T>, key: T -> int)
  {
    forall i, j :: 0 <= i < j < |s| ==> key(s[i]) >= key(s[j])
  }

  ghost predicate SortedAsc<T>(s: seq<T>, key: T -> int)
  {
    forall i, j :: 0 <= i < j < |s| ==> key(s[i]) <= key(s[j])
  }

  /** The elements of `s` that satisfy `keep`, in their stored order. */
  function Filter<T(!new)>(s: seq<T>, keep: T -> bool): (r: seq<T>)
    ensures forall x :: multiset(r)[x] == if keep(x) then multiset(s)[x] else 0
    ensures |r| <= |s|
  {
    if s == [] then []
    else
      var rest := Filter(s[1..], keep);
      assert s == [s[0]] + s[1..];
      if keep(s[0]) then [s[0]] + rest else rest
  }

  /** Inserts `x` into a sequence that is sorted with the largest key first. */
  function Insert<T>(x: T, s: seq<T>, key: T -> int): (r: seq<T>)
    requires SortedDesc(s, key)
    ensures SortedDesc(r, key)
    ensures multiset(r) == multiset(s) + multiset{x}
    ensures |r| == |s| + 1
    ensures r[0] == x || (s != [] && r[0] == s[0])
    decreases |s|
  {
    if s == [] || key(x) >= key(s[0]) then
      [x] + s
    else
      var rest := Insert(x, s[1..], key);
      assert s == [s[0]] + s[1..];
      InsertHead(s[0], rest, key);
      [s[0]] + rest
  }

  /** Putting in front of a sorted sequence an element no smaller than its first keeps it sorted. */
  lemma InsertHead<T>(h: T, rest: seq<T>, key: T -> int)
    requires SortedDesc(rest, key)
    requires rest != [] ==> key(h) >= key(rest[0])
    ensures SortedDesc([h] + rest, key)
  {
  }

  /** `sort({ key: -1 })`: the elements of `s` with the largest key first. */
  function SortDesc<T>(s: seq<T>, key: T -> int): (r: seq<T>)
    ensures SortedDesc(r, key)
    ensures multiset(r) == multiset(s)
    ensures |r| == |s|
  {
    if s == [] then []
    else
      assert s == [s[0]] + s[1..];
      Insert(s[0], SortDesc(s[1..], key), key)
  }

  function Reverse<T>(s: seq<T>): (r: seq<T>)
    ensures |r| == |s|
    ensures forall i :: 0 <= i < |s| ==> r[i] == s[|s| - 1 - i]
    ensures multiset(r) == multiset(s)
  {
    if s == [] then []
    else
      assert s == [s[0]] + s[1..];
      Reverse(s[1..]) + [s[0]]
  }

  /** `sort({ key: 1 })`: the elements of `s` with the smallest key first. */
  function SortAsc<T>(s: seq<T>, key: T -> int): (r: seq<T>)
    ensures SortedAsc(r, key)
    ensures multiset(r) == multiset(s)
  {
    var d := SortDesc(s, key);
    ReverseSorted(d, key);
    Reverse(d)
  }

  lemma ReverseSorted<T>(d: seq<T>, key: T -> int)
    requires SortedDesc(d, key)
    ensures SortedAsc(Reverse(d), key)
  {
  }

  /** `limit(n)` */
  function Take<T>(s: seq<T>, n: nat): (r: seq<T>)
    ensures |r| == Min(n, |s|)
    ensures r == s[..|r|]
  {
    if n <= |s| then s[..n] else s
  }

  function Min(a: int, b: int): int
  {
    if a <= b then a else b
  }

  /** `find(filter).sort({ key: -1 }).limit(limit)`: the `limit` newest
      matching elements, newest first. Every matching element left out is
      no newer than any element returned. */
  function Newest<T(!new)>(s: seq<T>, keep: T -> bool, key: T -> int, limit: nat): (r: seq<T>)
    ensures |r| == Min(limit, |Filter(s, keep)|)
    ensures forall x :: x in r ==> keep(x)
    ensures SortedDesc(r, key)
    ensures multiset(r) <= multiset(Filter(s, keep))
    ensures forall x, y :: x in multiset(Filter(s, keep)) - multiset(r) && y in r ==> key(x) <= key(y)
  {
    var f := Filter(s, keep);
    var sorted := SortDesc(f, key);
    var r := Take(sorted, limit);
    PrefixIsTop(sorted, |r|, key);
    assert forall x :: x in r ==> x in multiset(f);
    r
  }

  /** The first `n` elements of a sequence sorted largest first are its `n`
      largest: none of the others has a larger key. */
  lemma PrefixIsTop<T>(sorted: seq<T>, n: nat, key: T -> int)
    requires SortedDesc(sorted, key) && n <= |sorted|
    ensures SortedDesc(sorted[..n], key)
    ensures multiset(sorted[..n]) <= multiset(sorted)
    ensures forall x, y :: x in multiset(sorted) - multiset(sorted[..n]) && y in sorted[..n] ==> key(x) <= key(y)
  {
    var r, rest := sorted[..n], sorted[n..];
    assert sorted == r + rest;
    assert multiset(sorted) - multiset(r) == multiset(rest);
    forall x, y | x in multiset(rest) && y in r ensures key(x) <= key(y) {
      var j :| 0 <= j < |rest| && rest[j] == x;
      var i :| 0 <= i < |r| && r[i] == y;
      assert sorted[i] == y && sorted[n + j] == x;
    }
  }
}
